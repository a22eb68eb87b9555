# affe-agent: a verified model

affe-agent is an agent execution kernel: sessions, submissions, runs and turns over a language model, with
steering, follow-ups, interruption, tool execution, permission and host scheduling. This project models that
kernel in Dafny and proves what the code promises of it, for every input, every schedule and every run.

`dafny verify dfyconfig.toml` checks the whole project; each module imports the ones it needs.

## The parts

**The kernel** (`Kernel*.dfy`). `AgentSession`, `AgentSubmission`, `AgentRun` and `AgentTurn` share one session
state, two input queues, canonical history, a progress counter, two fibre slots and a one-permit gate. Every read
or write of one of them, and every acquisition and release of the gate, is a step of its own, with a program
counter for each submission's fibre and for each caller of `steer`, `followUp`, `snapshot` and `awaitSubmission`.
A schedule is any sequence of such steps, of new prompts, of interruptions (which may land at any step outside
admission, the commit of a turn and the release), and of closing the session. The check of an accepting flag and
the offer that follows it are separate steps, so the ungated close lands between them in some schedules. What the
model answers, what its tools do, what the clock says and what a hand-written loop policy decides are arbitrary.
`AgentSession` is the same session as an object, with the source's own loops over its references, for an operation
nobody interleaves with; `KernelAlone` ties the two: what an operation does alone is a schedule of the machine, so what
holds of every schedule holds of it. `KernelFinish` is about progress: no submission is ever stranded.
`KernelDecisions` says when a run goes on and when it ends, in every schedule; `KernelScript` and `KernelPrompt` what a
run and a whole prompt come to when nobody interferes, turn by turn; `KernelInputs` when steering and follow-ups are
taken, what callers come to by themselves, and what an interruption and a close leave.

**A turn's tool calls** (`ToolCall`, `ToolResult`, `ToolBatch`, `ToolExposure`, `TurnOutput`). One call's permission
stages, handler stream and events; a response's batch of calls, grouped, refused, merged and matched; the tools shown to
the model; the value a result projects to. `ToolResult` says which result the model is given, by its place in the
handler's stream, and what is announced. `Kernel` commits what `ToolBatch` says a batch comes to.

**Who waits for what** (`Scheduling*`). Strategies, ceilings and host locks as an ordered list for each call, with
containers whose nested calls take locks of their own; `SchedulingTogether` says which calls can run at once.

**Decisions with descriptions** (`AgentLoop`, `LoopDecisions`, `Permission*`). A loop or a policy is a decision function
built together with a description of it as data; the description is read back. `LoopDecisions` and `PermissionMeaning`
say what is decided, by the fields of a turn and the places of rules, without the functions that compute it.

**Records** (`Trace`, `RunLedger`, `LedgerMeaning`, `Blob*`). The bounded trace of a started submission under concurrent
observers; the deduplicating, evicting ledger; content-addressed blobs and the documents that refer to them, whose file
parts `BlobPaths` finds by the indices that lead to them.

`Base`, `Picking`, `Text`, `Sorting` and `Sums` hold what these share.

## What turned out false

- An interrupted submission's progress read from the live counter (src/AgentSession.ts:945-946) is its own exactly
  until a later admission zeroes the counter: `KernelProgress.LiveReadIsOwnIff`, and a schedule that misreads under
  every loop, `KernelProgress.LiveReadMisreports`. The settled copy is always its own.
- `withFinalTurn` and `withFinalAnswer` carry one description and decide alike exactly when the inner policy does not
  decline an answer: `AgentLoop.FinalTurnsAgreeIff`, `AgentLoop.DurationBreaksTheDescription`. For an agent with an
  output the description reads right exactly then or when the turn gave the output: `AgentLoop.FinalAnswerReadsIff`.
- "`ToolCallStarted` owes a terminal event, whatever happens next" (src/ToolExecution.ts:588-606) holds exactly when
  the call does not end in a defect outside its handler. There are three: while it is being decided or asked about, a
  tool missing from the toolkit, and a handler that finishes without a result: `ToolCall.TerminalIff`, and each of them
  at a concrete input in `ToolCall.SilentEndings`.
- A literal matcher that reads as a pattern can be re-created as one that allows what it denied:
  `PermissionDescription.LiteralIsMisread`. Policies come back as they were exactly when no matcher is of that kind,
  none is a function and none was written by hand: `PermissionDescription.PolicyReadsBackIff`.
- `withOutputStop` is documented as `and(loop, ...)` (src/Agent.ts:463-467). It overrides the inner policy's own stop
  on the turn that reports the output, and is that `and` exactly otherwise: `AgentLoop.OutputStopIsAndIff`, and a bound
  it overrides, `AgentLoop.OutputOverrulesTheBound`.
- "A new search replaces the previous selection" (src/ToolExposure.ts:130-133) holds exactly when the newest search
  selected what the first one answered in the same message did: `ToolExposure.NewestIsReadIff`, and two searches in one
  message of which the second is ignored, `ToolExposure.SecondSearchIsIgnored`.
- Externalize then resolve gives back a document exactly when the data that moved was nothing but its tag and its own
  canonical base64: `BlobRoundTrip.RoundTripIff`, and a field that is lost, `BlobRoundTrip.ExtraFieldIsLost`.
- Scheduling deadlocks when one scheduling value is combined with itself, and when a tool with nested calls is not
  marked a container: `SchedulingLiveness.CombinedWithItselfDeadlocks`, `SchedulingLiveness.UnmarkedContainerDeadlocks`.
  A call that needs more permits of a lock than it has never settles, in any workload (`SchedulingFit.UnfitNeverSettles`),
  and a call alone can finish exactly when it does not (`SchedulingFit.LoneFinishesIff`).

## Model

| member | source | states |
|---|---|---|
| KernelTheorems.AtMostOneExecutes | src/AgentSession.ts:572-599 | in every state of every schedule at most one submission's fibre is live, and it is the active one of a session that is not idle |
| KernelTheorems.AppliedByItsOwner | src/AgentSession.ts:1020-1046 | no submission ever commits to history a steer or follow-up accepted for another |
| KernelTheorems.QueuedForActive | src/AgentSession.ts:602-652 | whenever the gate is free, every queued input was accepted for the active submission, though a successor may claim between a release's idle write and its drains |
| KernelTheorems.Conservation | src/AgentSubmission.ts:206-283 | at every step, what was accepted for a submission is, in acceptance order, applied ++ held by its fibre ++ queued ++ dropped by its release |
| KernelTheorems.CompletedAppliedAll | src/AgentRun.ts:178-209 | a submission that completes has applied exactly what was accepted, once and in order, and after each input some later turn of its own ran |
| KernelTheorems.AnnouncedFirst | src/AgentSession.ts:1059-1084 | an input is announced before it is applied, and before it is even taken from its queue |
| KernelTheorems.AppendOnly | src/AgentTurn.ts:738-780 | history only grows by appending, over any continuation of any schedule, under interruption and failure |
| KernelTheorems.StepExtends | src/AgentTurn.ts:53-70 | no single action of any fibre or caller rewrites canonical history |
| KernelTheorems.TurnsAreWhole | src/AgentTurn.ts:645-724 | a committed turn has one result per harness-executed call, matched by id in call order with no id twice, and its prompt saw exactly the history before it |
| KernelTheorems.SnapshotIsCurrent | src/AgentSession.ts:1257-1297 | a snapshot that is taken is the session's history at a moment when no submission was live, whatever started and finished between its two reads |
| KernelTheorems.AwaitWindow | src/AgentSession.ts:974-996 | awaiting a returned receipt reports not-found only after a later submission was settled; what it reads from the settled slot is that submission's own progress, short of its last turn at most |
| KernelTheorems.RunsBounded | src/AgentSubmission.ts:162-175 | a submission starts at most one run for its input and one for each input accepted for it |
| KernelInvariant.Always | src/AgentSession.ts:309-560 | the protocol's invariant (gate, queues, flags, fibre slots, history and callers) holds after every schedule |
| KernelFinish.EverySubmissionFinishes | src/AgentSession.ts:602-652 | from every state of every schedule, steps of the submissions and callers already there, with nothing interrupted and nobody new, bring every submission to the end of its release and leave the gate free |
| KernelLiveness.NeverWedged | src/AgentSession.ts:613-651 | while any submission has not finished its release, some fibre or caller already there can step: the one-permit gate never deadlocks |
| AgentSession.Session.Claim | src/AgentSession.ts:572-599 | an idle session, and no other, is taken for a new submission, as the machine's claim takes it |
| AgentSession.Session.Offer | src/AgentSession.ts:1053-1132 | an input is accepted exactly when the submission addressed is the active one and its flag is up; then it is last in its queue, and otherwise nothing changes |
| AgentSession.Session.ApplySteering | src/AgentTurn.ts:53-70 | the loop commits every queued steer in order and leaves the queue empty |
| AgentSession.Session.Turn | src/AgentTurn.ts:547-787 | a turn adds one unit of history and counts itself, or changes nothing and the fibre fails |
| AgentSession.Session.Run | src/AgentRun.ts:100-210 | the turn loop comes to the run's whole effect on history, progress, flags and steering; and given choices after each of which but the last the loop goes on, it commits exactly their turns, in order, and the run is over |
| AgentSession.Session.Execute | src/AgentSubmission.ts:162-285 | the submission's loop comes to its whole effect: runs, buffered follow-ups, the close and its completion |
| AgentSession.Session.Release | src/AgentSession.ts:602-652 | a release settles the progress, leaves the session without a submission or open flags, and both queues empty |
| AgentSession.Session.Perform | src/AgentSession.ts:704-749 | the forked fibre's body and then its release, on the object's own references, come to the submission's whole effect |
| AgentSession.PerformAccounts | src/AgentSession.ts:704-749 | a submission the object performs alone, from wherever a schedule has led, leaves the session quiet and accounts for all it had accepted: applied, held and dropped in order, and all applied and answered if it completes |
| KernelDecisions.RunEndsWhereTheLoopStops | src/AgentRun.ts:100-210 | in every schedule, a run a submission has left without failure or interruption has as its last turn one with its tools withheld, or one on which its loop decided to stop when asked with that turn's own numbers |
| KernelDecisions.RunGoesOnWhereTheLoopDoes | src/AgentRun.ts:178-182 | in every schedule the turns of a run are numbered 1, 2, 3 and so on, each but the first following one after which the loop went on; a turn has its tools withheld exactly when the loop asked there for a final turn, and nothing follows it |
| KernelDecisions.IdleIsLast | src/AgentLoop.ts:253-262 | in every schedule under `untilIdle` or any `limits`, no turn of a run follows a committed turn of it in which the model called nothing |
| KernelDecisions.IdleIsReached | src/AgentLoop.ts:253-262 | and it comes to that turn: in every schedule under `untilIdle`, a run left without failure or interruption called nothing on its last turn |
| KernelScript.ScriptRuns | src/AgentRun.ts:100-210 | alone, a run given choices after each of which but the last the loop goes on commits exactly their works, in order and numbered on, counts them, closes steering and is over |
| KernelScript.StoppedScript | src/AgentRun.ts:100-210 | Continue after turns 1 to n - 1 and Stop after turn n make exactly n turns |
| KernelScript.FinalScript | src/AgentRun.ts:157-182 | Continue after turns 1 to n - 1 and a final turn asked for after turn n make n + 1, the last with its tools withheld |
| KernelPrompt.PromptAlone | src/AgentSession.ts:678-754 | from any idle session a schedule leads to, a prompt nobody interferes with adds to history itself and its script's turns and nothing else, completes, settles one run and that many turns as its own progress, and leaves the session idle |
| KernelInputs.SteeringOpenIff | src/AgentSession.ts:1053-1084 | in every schedule steering is admitted from the claim to the close of the first run and within each later one, and refused between runs |
| KernelInputs.FollowUpsOpenIff | src/AgentSubmission.ts:206-283 | in every schedule follow-ups are admitted from the claim until the check that finds none to do, and again when the last drain finds one |
| KernelInputs.BoundaryAppliesAll | src/AgentTurn.ts:53-70 | in every schedule all steering accepted so far has been applied, in the order of acceptance, when a turn boundary gives back the gate |
| KernelInputs.OfferAloneIff | src/AgentSession.ts:998-1132 | from every state of every schedule with the gate free, a `steer` or `followUp` that nobody interrupts is accepted exactly when the session runs and admits its kind: then its input is last in its queue, accepted and announced once; otherwise nothing has changed |
| KernelInputs.SnapshotAloneIff | src/AgentSession.ts:1257-1297 | a snapshot nobody interrupts is taken exactly when the session is idle, and is its whole history |
| KernelInputs.AwaitAloneIff | src/AgentSession.ts:928-996 | a wait nobody interrupts joins the live submission, reads what was settled exactly when it is that submission's own, and else finds nothing |
| KernelInputs.InterruptedAddsNothing | src/AgentSession.ts:704-749 | an installed submission interrupted anywhere in its body gives back the gate, never completes, and adds nothing more to history, whatever follows |
| KernelInputs.ClosedForGood | src/AgentSession.ts:572-583 | a closed session stays closed and never admits another submission, whatever follows |
| KernelAlone.RunIsScheduled | src/AgentRun.ts:100-210 | a whole run, of any number of turns, from any turn boundary a schedule has led to, is a schedule that goes on from there by the fibre's own steps |
| KernelAlone.SubmissionIsScheduled | src/AgentSubmission.ts:162-285 | so is a whole submission, of any number of runs |
| KernelAlone.ReleaseIsScheduled | src/AgentSession.ts:602-652 | so is a whole release, from wherever the fibre left its body |
| KernelAlone.PerformedIsScheduled | src/AgentSession.ts:704-749 | so are a submission and its release together, and nothing more is accepted on the way |
| KernelAlone.AloneIsScheduled | src/AgentSession.ts:678-754 | any number of a fibre's steps taken alone, from wherever a schedule has led, is the schedule with those steps added |
| KernelTurns.TurnsBounded | src/AgentRun.ts:100-174 | under any loop that does not continue at or past turn n, however it is written, no run commits a turn past n except one with tools withheld, at most n + 1; turns of a run are numbered in commit order and nothing follows the withheld one |
| KernelTurns.LimitsHold | src/AgentLoop.ts:509-535 | `limits({maxTurns: n})` takes at most n turns a run, and one more only with a final answer |
| KernelTurns.WithheldRunsNothing | src/AgentTurn.ts:88-131 | on a turn whose tools were withheld every result is a refusal or comes of the harness's own tool |
| KernelTurns.LimitsEndTheRun | src/ToolExecution.ts:817-845 | a turn in which a reached handler dies or meets an engine limit is never committed: history stays as it was, the fibre goes to its release, and no schedule adds a turn to the run |
| KernelTurns.NoTurnAfterStop | src/AgentRun.ts:183-209 | once a run has stopped no schedule adds a turn to it: late steering is answered by a run of its own |
| KernelProgress.LiveReadIsOwnIff | src/AgentSession.ts:928-962 | a caller that joined a submission live reports that submission's own progress exactly until a later admission has zeroed the counter |
| KernelProgress.LiveReadMisreports | src/AgentSession.ts:691-704 | over every seed and loop some schedule has such a caller report its successor's zeroes while the settled copy is right |
| KernelProgress.AlwaysCopied | src/AgentSession.ts:602-612 | while no successor has zeroed it, the live counter equals the settled copy |
| AgentLoop.DescriptionDecides | src/AgentLoop.ts:231-331 | reading a loop's flattened description gives the same decision, reason, exhaustion and consulted policies as the loop, for every nesting, on every turn on which none of the policies consulted is hand-written or declines a final answer; what each policy decides is in `LoopDecisions` |
| AgentLoop.PlainDecides | src/AgentLoop.ts:231-331 | so it does on every turn for every nesting of the library's own policies without `withFinalAnswer`; what those decide is in `LoopDecisions` |
| LoopDecisions.UntilIdleIff | src/AgentLoop.ts:253-262 | `untilIdle` goes on exactly when the turn has outstanding calls, and otherwise stops with neither reason nor exhaustion |
| LoopDecisions.CeilingsIff | src/AgentLoop.ts:265-331 | the three ceilings stop exactly at or past their bound, each with its own reason and exhaustion, and go on below it |
| LoopDecisions.FinalTurnsIff | src/AgentLoop.ts:343-415 | a final turn is asked for exactly when the inner policy stops while calls are outstanding, for a final answer only at a bound that another model call does not contradict; the reason is kept |
| LoopDecisions.FailsIff | src/AgentLoop.ts:425-460 | a run fails exactly when the inner policy stops with an exhaustion, naming it and its reason |
| LoopDecisions.CombinedIsFirstExtreme | src/AgentLoop.ts:573-642 | `and` decides as the first policy that stops most, `or` as the first that stops least, of all of them, though it does not ask all |
| LoopDecisions.FirstSettlesIt | src/AgentLoop.ts:573-642 | a failing policy decides exactly when none before it has settled the matter, by a stop under `and` and a continue under `or` |
| LoopDecisions.AsksInOrder | src/AgentLoop.ts:573-642 | a combination consults its policies in order up to the first that settles the matter, and no further |
| LoopDecisions.LimitsDecide | src/AgentLoop.ts:509-535 | what `limits` decides for every choice of bounds and every turn: an idle turn ends the run without a reason, else the first bound reached ends it, asks for one final answer or fails it, and with none reached it goes on |
| LoopDecisions.LimitsStopIdle | src/AgentLoop.ts:509-535 | under `untilIdle` and every `limits`, a turn without calls is never followed by more |
| AgentLoop.FinalAnswerReadsIff | src/Agent.ts:472-491 | under a final answer the description reads right exactly when the bounds inside decline nothing; with an output stop around it, exactly then or when the turn gave the output |
| AgentLoop.JoinFold | src/AgentLoop.ts:573-597 | joining past a whole fold is folding past the join, which is what lets a nested combination be spliced into its parent |
| AgentLoop.FoldConcat | src/AgentLoop.ts:620-642 | folding a concatenation of policies is folding its parts in turn, short-circuits included |
| AgentLoop.FinalTurnsAgreeIff | src/AgentLoop.ts:343-415 | the two final-turn policies are described alike and decide alike exactly when the inner policy declines nothing |
| AgentLoop.FinalTurnsAgree | src/AgentLoop.ts:394-415 | over loops without a duration bound they agree on every turn, and the shared description is honest |
| AgentLoop.DurationBreaksTheDescription | src/AgentLoop.ts:314-331 | a duration bound under a final answer is misread by its description, on a concrete turn |
| AgentLoop.OutputStopIsAndIff | src/Agent.ts:455-491 | a reported output ends the run; the policy is the documented conjunction exactly when the inner one does not stop on that turn for another reason |
| AgentLoop.OutputOverrulesTheBound | src/Agent.ts:463-491 | at a bound reached on the turn that gives the output, the reason kept is the output's and not the bound's |
| AgentLoop.TurnLimitBounds | src/AgentLoop.ts:573-619 | a turn bound in one conjunct, or in every disjunct, bounds a loop whatever hand-written policies are in it |
| AgentLoop.TurnLimitEnds | src/AgentLoop.ts:265-276 | a loop with a turn bound in a conjunct, or in every disjunct, ends or fails by that turn |
| AgentLoop.NeverFinalDecides | src/AgentLoop.ts:343-357 | a loop without a final-turn policy never asks for a final turn |
| AgentLoop.LimitsAreTurnLimited | src/AgentLoop.ts:509-535 | `limits` with `maxTurns` is a turn-limited loop under each way of exhausting, and asks for a final turn only when told to |
| ToolCall.Consume | src/ToolExecution.ts:757-783 | the fold over a handler's stream reports every preliminary result as it comes and keeps the last final one, or failing that the last of all |
| ToolCall.FloorHolds | src/ToolExecution.ts:485-489 | the tool's own requirement is at least an ask, a policy's denial stands with its reason, and only two yeses allow |
| ToolCall.ReachedIff | src/ToolExecution.ts:521-556 | the handler is reached exactly when the tool exists and its parameters do not decode, or no floor and an allow, or no denial and a granted question |
| ToolCall.UnaskableIsRefused | src/ToolExecution.ts:534-541 | where there is nobody to ask, only a call needing no approval and allowed by the policy goes ahead |
| ToolCall.TerminalIff | src/ToolExecution.ts:570-884 | a started call gets exactly one terminal event, its last, exactly when it does not end in one of three defects, and then none; the model has a result for it exactly when that event says so. Which result, and which event, is `ToolResult.SettlesIff` and `ToolResult.ToldInOrder` |
| ToolCall.SilentEndings | src/ToolExecution.ts:588-606 | a defect in a stage, a missing tool and a stream without a result, at concrete inputs, start a call and close nothing |
| ToolResult.SettlesIff | src/ToolExecution.ts:757-884 | a call is answered with a payload exactly when its fate deserves it: the value and failure flag of the last chunk that was not preliminary, or of the last of all; or the refusal of the stage that refused, where its policy returns it |
| ToolResult.CommitsTheChosen | src/ToolExecution.ts:845-884 | of a call let through whose handler finishes, the chunk so chosen at k is the committed result, under the call's id and name, and the last event says success exactly when it is not a failure |
| ToolResult.ToldInOrder | src/ToolExecution.ts:757-884 | a call let through is announced by its start, the question and its answer, each preliminary chunk as it came, and its ending, and by nothing else |
| ToolResult.RefusedInOrder | src/ToolExecution.ts:620-702 | a call not let through is announced by its start, the question and its answer, and its refusal or interruption |
| ToolResult.OutstandingAt | src/AgentTurn.ts:645-672 | a turn's calls are those the provider has not executed, in the order of the response |
| ToolResult.TurnAnswersIff | src/AgentTurn.ts:674-724 | a turn commits exactly when no id is named twice and every call has an answer, and then part i is call i's own: the refusal of a batch that breaks `Alone`, of a hidden tool, or what its fate deserves |
| ToolCall.PublishedIsPrefix | src/ToolExecution.ts:224-247 | the progress a submission publishes is the longest prefix of its reports within the byte ceiling: after one refusal, nothing more |
| ToolCall.Meter.PublishEach | src/ToolExecution.ts:224-247 | a submission's reports in turn, each spent whether or not it is published, come to the published list of the row above |
| ToolBatch.GroupByName | src/ToolExecution.ts:933-945 | grouping puts every call, with its index, in exactly one group, of its own name, groups having distinct names |
| ToolBatch.RegroupKeepsPlaces | src/ToolExecution.ts:947-984 | however calls were grouped, flattening and sorting the groups' results by index puts result i at place i |
| ToolBatch.Merge | src/ToolExecution.ts:1096-1101 | merging refusals and results by two counters gives each call its own |
| ToolBatch.Execute | src/ToolExecution.ts:1059-1115 | every branch of `execute` (sequential or per tool, hidden calls or none, a rejected batch) gives each call what its place specifies |
| ToolBatch.UniqueIds | src/AgentTurn.ts:674-686 | the check passes exactly when no two calls of the response share an id |
| ToolBatch.TurnOutcome | src/AgentTurn.ts:645-707 | what a turn commits is matched: one result per call the provider did not execute, by id and in order, ids distinct, and withheld tools unused |
| ToolBatch.Turn | src/AgentTurn.ts:645-707 | the turn's own steps come to exactly that |
| ToolBatch.GateIff | src/ToolExecution.ts:1081-1115 | a batched call reaches its handler exactly when it starts, its batch does not break `Alone`, its tool is exposed and present, and it is permitted or undecodable |
| ToolBatch.LimitsAreNotNegotiable | src/ToolExecution.ts:817-845 | a batch with one reached handler that dies or meets an engine limit fails its turn, whatever the rest came to and under every failure policy |
| ToolBatch.AloneIsAnsweredWhole | src/ToolExecution.ts:987-1009 | a batch that breaks `Alone` runs nothing, is announced and closed call by call, and is committed as refusals whatever the policies |
| ToolBatch.BatchTerminalIff | src/ToolExecution.ts:886-904 | in a batch every started call is closed by exactly one terminal event, defects outside handlers apart, and an unstarted one has no events |
| ToolBatch.CommitsIff | src/AgentTurn.ts:674-724 | a turn commits exactly when no id is named twice and the last thing announced of every call is that the model has a result for it |
| ToolExposure.SelectionFrom | src/ToolExposure.ts:157-168 | the backward scan computes the selection |
| ToolExposure.SelectionIsLatest | src/ToolExposure.ts:153-168 | the selection is that of the first discovery in the last message with any, and empty only if there is none |
| ToolExposure.NewestIsReadIff | src/ToolExposure.ts:130-168 | the newest search's selection is the one read exactly when the first search of its own message selected the same |
| ToolExposure.SecondSearchIsIgnored | src/ToolExposure.ts:130-168 | of two searches in one message the second is not read, at a concrete history |
| ToolExposure.ExposedIsEligible | src/ToolExposure.ts:175-194 | nothing is exposed but what is registered and visible, and the harness's own tools |
| ToolExposure.ExposedIsBounded | src/ToolExposure.ts:190-193 | a progressive turn shows what is always shown and never more than its bound, unless declared tools alone exceed it |
| ToolExposure.HiddenNeverRuns | src/ToolExecution.ts:1082-1091 | whatever history selects and the model calls, a tool its principal may not see never reaches its handler while exposure is in force |
| ToolExposure.DiscoveryIff | src/ToolExposure.ts:157-168 | what counts as a discovery is a successful result of the discovery tool that decodes, whatever it selected |
| ToolExposure.EagerIff | src/ToolExposure.ts:185-189 | eagerly nothing is restricted exactly when all that is registered is visible, and else exactly the visible and the harness's own are shown |
| ToolExposure.ProgressiveIff | src/ToolExposure.ts:190-193 | progressively exactly these are shown: the discovery tool, the harness's own, the visible pinned, and the first of the selection that are visible and not shown anyway, while there is room |
| TurnOutput.ProjectedOutput | src/AgentTurn.ts:283-313 | the answer is that of the first call, in call order, whose own successful result projects to something; a lookup by id never finds another call's result |
| TurnOutput.ProjectionIs | src/AgentTurn.ts:293-313 | a call's result is projected by the first projector of its tool, if it is not a failure, and by none otherwise |
| Scheduling.CapacityIsKept | src/ToolScheduling.ts:95-137 | on every schedule of enters, settles, stops and releases, no lock is held beyond its permits |
| Scheduling.RunnersAreBounded | src/ToolScheduling.ts:121-137 | of the calls a lock is taken for, no more run at once than it has permits |
| Scheduling.SameKeyNeverOverlaps | src/ToolScheduling.ts:80-119 | two calls that share a serialization key never run at once, wherever in the host's scheduling it is and whatever they are part of |
| Scheduling.AtMostMaxRun | src/ToolScheduling.ts:121-137 | under `maxConcurrent(max)` anywhere in the host's scheduling at most `max` calls that do work run |
| Scheduling.PerToolBounds | src/ToolExecution.ts:916-985 | at every moment at most `total` calls of a response run, and at most its name's limit of each name |
| Scheduling.KeyLocks.LockFor | src/ToolScheduling.ts:99-108 | a key's lock is made once and kept, and two keys never share one |
| SchedulingLiveness.LocksAreOrdered | src/ToolScheduling.ts:139-151 | given distinct constraints, every call takes its locks in one strictly increasing order: by depth, slot, ceiling, then the host's |
| SchedulingLiveness.NeverStuck | src/ToolScheduling.ts:60-76 | while any call is unfinished some call can step without interruption, for any strategies, nesting and host scheduling, `maxConcurrent(1)` included |
| SchedulingLiveness.AllFinish | src/ToolExecution.ts:894-904 | from wherever a schedule has led, all calls finish by steps of their own |
| SchedulingFit.UnfitNeverSettles | src/ToolScheduling.ts:139-151 | a call that with its container needs more permits of a lock than the lock has never settles, on any schedule of any workload that does not interrupt it |
| SchedulingFit.LoneFinishesIff | src/ToolScheduling.ts:60-76 | a call on its own can finish uninterrupted exactly when it takes no lock more often than it has permits |
| SchedulingTogether.HostLocksIff | src/ToolScheduling.ts:95-151 | of the host's locks a call takes those of its keys and ceilings, wherever in the host's scheduling they are, and no others |
| SchedulingTogether.BatchLocksIff | src/ToolExecution.ts:916-985 | within its batch a call waits for its strategy's slot, its name's limit or the default, and the total, at most once each, and under `Parallel` for nothing |
| SchedulingTogether.TogetherIff | src/ToolScheduling.ts:95-151 | any calls, with the containers of those nested, can all run at once, uninterrupted, exactly when together they need no lock more often than it has permits: nothing else holds a call back |
| SchedulingTogether.ParallelIsUnbounded | src/ToolExecution.ts:916-985 | with no host scheduling any number of calls under `Parallel` can run at once |
| SchedulingLiveness.CombinedWithItselfDeadlocks | src/ToolScheduling.ts:139-151 | one scheduling value combined with itself makes its only call wait for itself |
| SchedulingLiveness.UnmarkedContainerDeadlocks | src/ToolScheduling.ts:60-76 | a tool with nested calls not marked a container keeps the only permit they wait for |
| Permission.CombineIsFirstStrictest | src/Permission.ts:47-63 | the merged decision is the first of the most restrictive |
| Permission.CombineAll | src/Permission.ts:54-63 | the loop computes the merge |
| Permission.MatchRules | src/Permission.ts:343-359 | the loop `rules` and `except` share computes what the matching rules decide between them |
| Permission.RulesReadInAnyOrder | src/Permission.ts:300-317 | rearranging a rule list covers the same requests at the same level |
| PermissionMeaning.AppliesIff | src/Permission.ts:293-303 | a rule applies exactly when its tool, action and resource each fit: an omitted matcher fits anything, a literal itself, a pattern by its test without the flags that keep state |
| PermissionMeaning.ExceptIff | src/Permission.ts:389-411 | whatever the base and whatever is remembered, the first strictest exception that fits decides; when none fits, the base does |
| PermissionMeaning.RulesIff | src/Permission.ts:343-359 | the first strictest rule that fits decides, and `otherwise` when none does |
| PermissionMeaning.AllIff | src/Permission.ts:246-259 | policies together allow when each of them does, and else the first strictest decides |
| PermissionMeaning.ExceptionsOverride | src/Permission.ts:361-388 | one exception that fits undoes a base that denies everything, and one that allows everything |
| Permission.Desk.Decide | src/Permission.ts:246-259 | evaluating a policy over the grant sets as they stand gives its specified decision and changes nothing; what that decision is, rule by rule, is in `PermissionMeaning` |
| Permission.Desk.Record | src/Permission.ts:461-466 | remembering updates in place exactly the grant sets the policy's specification says |
| PermissionGrants.KeyIsTheTriple | src/Permission.ts:417-437 | two requests share a grant key exactly when they share tool, action and resource, on all strings |
| PermissionGrants.GrantsAreExact | src/Permission.ts:448-467 | after any run of answers a remembered policy differs from what it wraps only by turning an ask into an allow, and only for an answered triple |
| PermissionGrants.UnansweredIsUnchanged | src/Permission.ts:448-467 | a request no answer was given for is decided by the whole policy as if none had been |
| PermissionGrants.GrantsOnlyLoosen | src/Permission.ts:246-259 | more grants are never stricter, through every conjunction and carve-out |
| PermissionGrants.DenialStands | src/Permission.ts:439-447 | a denial is the same, reason included, whatever was remembered |
| PermissionDescription.MatcherReadsBackIff | src/Permission.ts:320-341 | a matcher comes back from its description, but for flags that change nothing, exactly when it is neither a function nor a literal that reads as one or as a pattern |
| PermissionDescription.PolicyReadsBackIff | src/Permission.ts:541-576 | `fromDescription` of a policy's description is that policy without its grants exactly when every matcher is readable and nothing was written by hand |
| PermissionDescription.ReadBackDecides | src/Permission.ts:541-576 | what comes back decides every request as the policy did before any answer: identically if it never remembers, otherwise never less strictly, its denials unchanged |
| PermissionDescription.LiteralIsMisread | src/Permission.ts:512-525 | a literal that reads as a pattern comes back allowing what it denied |
| Trace.Collector.Take | src/Agent.ts:1215-1242 | one turn of the collector's loop updates the trace in place and numbers the envelope it will publish |
| Trace.AttachedInTimeReadsAll | src/Agent.ts:1265-1316 | an observer that attached before overflow has read exactly the envelopes from the first to the last published, in order, without gap or duplicate, and ends exactly on the terminal event |
| Trace.CaughtUpIsComplete | src/Agent.ts:1297-1316 | once the collector has caught up with a finished submission such an observer has read all of it and ended |
| Trace.AttachedLateReadsThePrefix | src/Agent.ts:1272-1295 | one that attached after overflow reads exactly the retained prefix, the longest that fits both bounds, and then fails |
| Trace.RetentionIsBounded | src/Agent.ts:1228-1238 | retention never exceeds either bound and counts its bytes exactly |
| Trace.CollectorCatchesUp | src/Agent.ts:1215-1242 | from wherever things stand, the collector's own steps publish all that was emitted |
| Trace.ComesToReadAll | src/Agent.ts:1265-1316 | an observer that attaches to a finished submission whose trace has not overflowed comes to read all of it and to end, by the collector's steps alone |
| RunLedger.OccurrenceIsTheTurn | src/budget/Budget.ts:76-79 | two entries share an occurrence key exactly when they are of one turn of one run, on all run ids |
| RunLedger.Ledger.Record | src/RunLedger.ts:156-175 | recording changes the retained entries exactly as the flat list: nothing for a duplicate, else one entry more, less the least recently written session past the limit |
| RunLedger.Ledger.Entries | src/RunLedger.ts:147-152 | flattening the buckets and sorting by sequence gives the entries as recorded |
| RunLedger.Ledger.Totals | src/RunLedger.ts:179 | the totals are the sum of the retained entries |
| RunLedger.Ledger.Run | src/RunLedger.ts:177-178 | a run's totals are the sum of its own retained entries |
| RunLedger.Add | src/RunLedger.ts:111-126 | the accumulating loop computes the sum |
| RunLedger.TotalsAreOfRuns | src/RunLedger.ts:86-93 | the totals of any entries are those of their runs together, with elapsed as the maximum |
| RunLedger.EvictsTheOldest | src/RunLedger.ts:165-173 | what is evicted is the session whose last write is the oldest of all, whole |
| RunLedger.RecordTwice | src/RunLedger.ts:80-82 | recording a turn again at once changes nothing, whatever else the second record says |
| LedgerMeaning.RecordedAs | src/RunLedger.ts:156-175 | after a record the entries are as before when the turn is there already in its session; else with it at the end; and past the limit of sessions without those of the one session whose last entry is the oldest, the rest in order |
| LedgerMeaning.OfRunAt | src/RunLedger.ts:177-178 | a run's entries are exactly those with its id, in the order recorded |
| LedgerMeaning.TotalsCount | src/RunLedger.ts:111-126 | the turns of the totals are the number of entries, and their tool calls and tokens the sums of the entries' own |
| LedgerMeaning.TotalsCost | src/RunLedger.ts:118-124 | the cost is known exactly when some entry's is, and is the sum of those known |
| LedgerMeaning.TotalsElapsed | src/RunLedger.ts:124-126 | the elapsed time is the greatest of any entry's, and zero without entries |
| BlobStore.PutKeeps | src/blob/BlobStore.ts:293-301 | a put loses and redescribes nothing held, and holds the content under its own hash |
| BlobStore.MemoryStore.PutBytes | src/blob/BlobStore.ts:290-301 | the reference handed out is the one held, whatever the metadata said this time |
| BlobStore.MemoryStore.Get | src/blob/BlobStore.ts:302-307 | what is got hashes to the reference's id, or is missing |
| BlobStore.MemoryStore.Remove | src/blob/BlobStore.ts:308-313 | a removal takes that blob and no other |
| BlobWire.PartsRebuilt | src/blob/BlobWire.ts:40-61 | the rebuilt document has the same file parts in the same order, each with its new data and nothing else changed |
| BlobWire.RebuiltTwice | src/blob/BlobWire.ts:44-61 | of two rebuildings the last is the one that counts |
| BlobWire.RefReadsBack | src/blob/BlobWire.ts:29-31 | a reference survives its wire form |
| BlobPaths.RefReadsIff | src/blob/BlobWire.ts:29-31 | a reference is read from every object that has its fields as they are written, whatever else it has but a file name of its own, and from no other |
| BlobWire.Externalize | src/blob/BlobWire.ts:83-116 | the walk, writing to the store as it goes, comes to the specified document and store; which places it reaches and what becomes of each is `BlobPaths.ExternalizedAt` |
| BlobWire.References | src/blob/BlobWire.ts:144-158 | the walk, pushing what it finds, returns the document's references in order, or fails if one does not parse; where they lie is `BlobPaths.ReferencesAt` |
| BlobPaths.PartsLieAt | src/blob/BlobWire.ts:44-61 | the walk finds the file part at every place one lies, reached by indices through `content` arrays, each once and in document order, and no other |
| BlobPaths.ExternalizedAt | src/blob/BlobWire.ts:83-116 | at every such place base64 that decodes to more bytes than may stay inline becomes a reference to those bytes, which the store holds; all other data, and everything else in the document, is as it was |
| BlobPaths.NothingLargeIsLeft | src/blob/BlobWire.ts:83-116 | at no place of the externalized document does a file part's inline base64 decode to more bytes than the threshold |
| BlobPaths.FirstDescribes | src/blob/BlobWire.ts:103-112 | content the store does not hold yet is described by the first part that brings it: its media type, else the default, else an octet stream; and its file name |
| BlobPaths.ResolvedIff | src/blob/BlobWire.ts:118-142 | resolving succeeds exactly when at every place a blob's reference parses and names what the store holds |
| BlobPaths.ResolvedAt | src/blob/BlobWire.ts:118-142 | and then each blob's data becomes the held bytes, inline, with other data and everything else as it was |
| BlobPaths.ReferencesAt | src/blob/BlobWire.ts:144-158 | the references found are those at the places whose data is a blob's, one for each and in document order; none are found exactly when one does not parse |
| BlobRoundTrip.RoundTripIff | src/blob/BlobWire.ts:83-142 | externalizing a document without references and resolving it later always succeeds, and is the identity exactly when the data that moved was canonical |
| BlobRoundTrip.ExtraFieldIsLost | src/blob/BlobWire.ts:83-142 | for every content over the threshold, data with one field more does not come back |
| BlobRoundTrip.NothingOversizedIsLeft | src/blob/BlobWire.ts:83-116 | afterwards no part the walk finds carries decodable inline bytes over the threshold; `BlobPaths.NothingLargeIsLeft` says it of every place in the document |
| BlobRoundTrip.ReferencesAreTheReplaced | src/blob/BlobWire.ts:144-158 | the references left are exactly those of the parts replaced, in document order, each naming its own content by hash and length |
| BlobRoundTrip.SameBytesSameRef | src/blob/BlobWire.ts:73-82 | equal contents are stored once and referred to alike |

## Left out

- Kernel.Step: where fibres interleave, the references are values of a state machine rather than fields of an object; a disabled step changes nothing.
- AgentSession.Session.Turn: the context transform, the toolkit's resolution and the model call are one arbitrary choice.
- AgentSession.Session.Run: ends early when its list of choices does, since a loop without a bound need not end.
- AgentSession.Session.Execute: alone, nothing is offered between the two closing drains, so the re-open is only in the machine.
- Kernel.Abortable: a failure, a defect and an interruption of a fibre are one step; which of the terminal events it emits is not told apart.
- Kernel.DoClaim: submission ids are ordinals; a host naming that repeats an id is not modelled.
- KernelTheorems.Conservation: an input's `owner`, and the logs of what was accepted and announced, are recorded beside the state and read by no step.
- KernelTheorems.CompletedAppliedAll: says nothing of a submission that fails or is interrupted, whose queued inputs are dropped; `KernelTheorems.Conservation` accounts for them.
- KernelTheorems.AwaitWindow: what is read from the live counter is not covered here but by `KernelProgress.LiveReadIsOwnIff`.
- KernelTurns.TurnsBounded: the constructors reject a bound of 0; for it the statement says at most one turn.
- KernelLiveness.NeverWedged: some step is always possible; that a waiter is eventually served depends on the semaphore's own queue.
- KernelFinish.EverySubmissionFinishes: the way on has the model fail its next turn; under a loop that never stops, a model that always calls tools need not let a run end.
- AgentLoop.Decide: a hand-written policy is any function of the turn and of one number standing for all else it reads; the `details` and `inner` it may describe itself with are not modelled.
- ToolCall.TerminalIff: an exit whose cause mixes an interruption with a failure is not modelled, nor an event whose emission is interrupted.
- ToolCall.ReachedIff: undecodable parameters reach `Toolkit.handle`, which rejects them itself; that library is not part of this model.
- ToolBatch.TurnOutcome: which of several failures a failed batch reports is not modelled, nor are provider-executed results.
- ToolExposure.ExposedIsBounded: the search behind `discover_tools`, and its byte budget, are not modelled.
- TurnOutput.ProjectedOutput: a value reported through the output tool, which takes precedence, is not part of this member.
- KernelDecisions.RunEndsWhereTheLoopStops: the clock, the reported output and what a hand-written policy reads are whatever they were when the loop was asked.
- KernelPrompt.PromptAlone: what steering and follow-ups offered meanwhile add is not part of this member; `KernelTheorems.CompletedAppliedAll` covers them.
- KernelInputs.OfferAloneIff: a caller interleaved with the submission is covered by the invariants over all schedules, not by this member.
- SchedulingLiveness.NeverStuck: assumes distinct schedulings and nested calls only in containers, as the library asks; the two deadlock members show why.
- Scheduling.CapacityIsKept: re-creating a scheduling from its description, which makes new permits, is not modelled.
- Permission.Desk.Decide: a hand-written policy's own `remember` is not modelled.
- PermissionDescription.PolicyReadsBackIff: a description written by another version of the library, and JSON parsing, are not modelled.
- Trace.AttachedInTimeReadsAll: assumes the session emits nothing after the event that ends its submission.
- RunLedger.TotalsAreOfRuns: costs are reals, so floating-point rounding is not captured.
- BlobWire.Externalize: an object's key order is not modelled; a store that refuses by policy or fails underneath is not either.
- BlobRoundTrip.RoundTripIff: assumes a collision-free hash; SHA-256 and base64 are arbitrary functions.
- Scope closing in the middle of an admission, and interruption of a `steer` or `followUp` caller inside its permit: they depend on the runtime.
- `activeRunId` and the turn number in the session state: written for observers and read by no step of the protocol.
- Out-of-process admission markers and durable stores: in memory they are no-ops, and their implementations are not part of this model.
- Model calls, streaming, telemetry, budgets, execution plans, event codecs, schemas, MCP, A2A and HTTP entries: they would add only easy members, or depend on libraries outside the repository.
