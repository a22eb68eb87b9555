/**
 The execution kernel as a state machine (src/AgentSession.ts, src/AgentSubmission.ts, src/AgentRun.ts,
 src/AgentTurn.ts). Every read or write of a shared reference, and every acquisition and release of the
 one-permit input gate, is a step of its own; any fibre may step between two steps of another.
 */
module Kernel {
  import opened Base
  import AgentLoop
  import ToolBatch
  import ToolCall

  // ------------------------------------------------------------ shared state

  datatype Status = Idle | Running | Closed
  datatype Kind = Steering | FollowUp

  /** A queued input. `owner`, the submission it was accepted for, is read by no step. */
  datatype Item = Item(owner: nat, body: nat)

  /**
   One append to canonical history, with the submission that appended it. A committed turn also carries
   its place in its run, and how much history its prompt was derived from.
   */
  datatype Entry =
    | Seeded(body: nat)
    | Prompted(sub: nat, body: nat)
    | Applied(sub: nat, kind: Kind, item: Item)
    | TurnDone(sub: nat, run: nat, turn: nat, context: nat, work: ToolBatch.Work)

  /** `SubmissionProgress`; `owner`, the submission that zeroed it, is read by no step. */
  datatype Progress = Progress(owner: nat, runs: nat, turns: nat)

  datatype Settled = Settled(sub: nat, progress: Progress)

  datatype Gate = Free | BySub(sub: nat) | ByCaller(caller: nat)

  datatype SessionState = SessionState(
    status: Status, count: nat, active: Option<nat>, acceptingSteering: bool, acceptingFollowUps: bool)

  /** The references every fibre of a session shares. */
  datatype Shared = Shared(
    state: SessionState, history: seq<Entry>, progress: Progress, steering: seq<Item>, followUps: seq<Item>,
    gate: Gate, activeFiber: Option<nat>, settledFiber: Option<Settled>)

  // -------------------------------------------------------- submission fibres

  /** How far the uninterruptible admission of a submission has come; `Receipted` is its receipt returned. */
  datatype Admission = Claimed | Zeroed | Forked | Installed | Receipted

  /** The next step of a fibre, by the function it is in. `late` marks the `applySteering` after a run's stop. */
  datatype SubmissionPC =
    | Waiting | Head | Commit | CountRun | PullCheck | PullWait | PullDrain | PullUnlock
    | CloseCheck | LastWait | LastDrain | LastUnlock | Reopen | Shift | ShiftOpen
  datatype RunPC =
    | StartRun | StartTurn | Derive | Think | CommitTurn | Record | Decide | CloseWait | CloseFlag | CloseUnlock
  datatype SteerPC = SteerWait | SteerDrain | SteerCommit | SteerUnlock
  datatype ReleasePC =
    | ReadFiber | ReadProgress | Settle | ClearFiber | WaitGate | SetIdle | DropSteering | DropFollowUps | OpenGate
  datatype PC =
    | Unborn | InSubmission(submission: SubmissionPC) | InRun(run: RunPC) | InSteering(late: bool, steering: SteerPC)
    | InRelease(release: ReleasePC) | Exited

  datatype Input = Initial(body: nat) | Later(item: Item)

  /** Input the fibre has taken but not yet applied. */
  datatype Inputs = Inputs(next: Option<Input>, pending: seq<Item>, batch: seq<Item>)

  datatype RunLocals = RunLocals(
    turn: nat, tools: nat, finalTurn: bool, late: nat, context: nat, work: Option<ToolBatch.Work>)

  datatype ExitLocals = ExitLocals(completed: bool, target: nat, landed: Progress)

  /** What was accepted for a submission, announced, and dropped on its release; read by no step. */
  datatype Log = Log(accepted: seq<Item>, announced: seq<Item>, dropped: seq<Item>)

  /** A fibre's locals. `continuations` counts the runs ended by late steering, and is read by no step. */
  datatype Fiber = Fiber(
    admission: Admission, pc: PC, input: Inputs, runs: nat, continuations: nat, run: RunLocals, exit: ExitLocals,
    steers: Log, follows: Log)

  /** A fibre's step: the shared state and its own locals, afterwards. */
  datatype Stepped = Stepped(shared: Shared, fiber: Fiber)

  // ----------------------------------------------------------------- callers

  datatype InputPC = Start | Validated | Holding | StillActive | Accepting | Offered | Announced | Accepted | Refused
  datatype SnapshotPC = Before | IdleSeen | HistoryRead | Taken | NotTaken
  /** `Landed` is an interrupted submission's progress as the caller that joined it live reads it. */
  datatype AwaitPC =
    | First | Second | FoundLive | Landed(progress: Progress) | FoundSettled(progress: Progress) | NotFound

  /** A caller of `steer` or `followUp`, of `snapshot`, or of `awaitSubmission`, with what it has read. */
  datatype Caller =
    | Offering(kind: Kind, body: nat, sub: nat, at: InputPC)
    | Snapshotting(count: nat, history: seq<Entry>, seen: SnapshotPC)
    | Awaiting(sub: nat, found: AwaitPC)

  datatype State = State(shared: Shared, fibers: map<nat, Fiber>, callers: map<nat, Caller>)

  /** What the model, the tools and the clock contribute to one step; arbitrary. */
  datatype Choice = Choice(batch: ToolBatch.Batch, elapsedMillis: real, outputReported: bool, context: nat)

  /** A turn in which the model calls nothing. */
  const NO_CALLS :=
    Choice(ToolBatch.Batch([], ToolBatch.Offer(map[], None, {}, false), false, ToolCall.Policies(false, false), map[]),
           0.0, false, 0)

  datatype Act =
    | Claim(body: nat)
    | Admit(sub: nat)
    | Advance(sub: nat, choice: Choice)
    | Abort(sub: nat)                          // interruption, failure or defect of a submission's fibre
    | Call(caller: nat, what: Caller)          // a new caller
    | Proceed(caller: nat)
    | CloseSession

  // ------------------------------------------------------------ construction

  const NO_LOG := Log([], [], [])

  function NewFiber(body: nat): Fiber {
    Fiber(Claimed, Unborn, Inputs(Some(Initial(body)), [], []), 0, 0, RunLocals(0, 0, false, 0, 0, None),
          ExitLocals(false, 0, Progress(0, 0, 0)), NO_LOG, NO_LOG)
  }

  /** A new session over a seed history: instructions, or a restored conversation. */
  function Initially(seed: seq<nat>): State {
    State(Shared(SessionState(Idle, 0, None, false, false),
                 seq(|seed|, i requires 0 <= i < |seed| => Seeded(seed[i])), Progress(0, 0, 0),
                 [], [], Free, None, None),
          map[], map[])
  }

  // ------------------------------------------------- AgentSession: admission

  /** `claim`: one atomic check-and-set, not under the gate. */
  function DoClaim(s: State, body: nat): State {
    if s.shared.state.status != Idle then s
    else
      var a := s.shared.state.count + 1;
      s.(shared := s.shared.(state := SessionState(Running, a, Some(a), true, true)),
         fibers := s.fibers[a := NewFiber(body)])
  }

  /** `admitResolved` after the claim. */
  function DoAdmit(sh: Shared, a: nat, f: Fiber): Stepped {
    match f.admission
    case Claimed => Stepped(sh.(progress := Progress(a, 0, 0)), f.(admission := Zeroed))
    case Zeroed => Stepped(sh, f.(admission := Forked, pc := InSubmission(Waiting)))
    case Forked => Stepped(sh.(activeFiber := Some(a)), f.(admission := Installed))
    case Installed => Stepped(sh, f.(admission := Receipted))
    case Receipted => Stepped(sh, f)
  }

  // ------------------------------------------------------------------- steps

  function AtSubmission(f: Fiber, pc: SubmissionPC): Fiber { f.(pc := InSubmission(pc)) }
  function AtRun(f: Fiber, pc: RunPC): Fiber { f.(pc := InRun(pc)) }
  function AtSteering(f: Fiber, late: bool, pc: SteerPC): Fiber { f.(pc := InSteering(late, pc)) }
  function AtRelease(f: Fiber, pc: ReleasePC): Fiber { f.(pc := InRelease(pc)) }

  /** Acquire the gate if it is free and go on as `g`; otherwise wait. */
  function Lock(sh: Shared, a: nat, f: Fiber, g: Fiber): Stepped {
    if sh.gate.Free? then Stepped(sh.(gate := BySub(a)), g) else Stepped(sh, f)
  }

  function Unlock(sh: Shared, g: Fiber): Stepped {
    Stepped(sh.(gate := Free), g)
  }

  function Appended(sh: Shared, e: Entry): Shared {
    sh.(history := sh.history + [e])
  }

  function Admitting(sh: Shared, followUps: bool): Shared {
    sh.(state := sh.state.(acceptingFollowUps := followUps))
  }

  /** Where a fibre leaves its body for `release`, giving back a gate it holds. */
  function Leave(sh: Shared, a: nat, f: Fiber): Stepped {
    Stepped(if sh.gate == BySub(a) then sh.(gate := Free) else sh, AtRelease(f, ReadFiber))
  }

  // ----------------------------------------------- AgentSubmission.execute

  function DoHead(sh: Shared, f: Fiber): Stepped {
    if f.input.next.Some? then Stepped(sh, AtSubmission(f, Commit))
    else if f.run.late > 0 then Stepped(sh, AtSubmission(f, CountRun))
    else Stepped(sh, AtRelease(f, ReadFiber).(exit := f.exit.(completed := true)))
  }

  function DoCommit(sh: Shared, a: nat, f: Fiber): Stepped {
    var g := AtSubmission(f, CountRun).(input := f.input.(next := None));
    match f.input.next
    case None => Stepped(sh, f)
    case Some(Initial(body)) => Stepped(Appended(sh, Prompted(a, body)), g)
    case Some(Later(item)) => Stepped(Appended(sh, Applied(a, FollowUp, item)), g)
  }

  function DoCountRun(sh: Shared, f: Fiber): Stepped {
    Stepped(sh.(progress := sh.progress.(runs := f.runs + 1)), AtRun(f, StartRun).(runs := f.runs + 1))
  }

  /** A drain of the follow-up queue into the fibre's own buffer. */
  function DoPull(sh: Shared, f: Fiber, pc: SubmissionPC): Stepped {
    Stepped(sh.(followUps := []), AtSubmission(f, pc).(input := f.input.(pending := f.input.pending + sh.followUps)))
  }

  /** The close flip: one atomic check-and-set, not under the gate. */
  function DoCloseCheck(sh: Shared, f: Fiber): Stepped {
    if f.input.pending == [] && f.run.late == 0 && sh.state.acceptingFollowUps
    then Stepped(Admitting(sh, false), AtSubmission(f, LastWait))
    else Stepped(sh, AtSubmission(f, Shift))
  }

  function DoReopen(sh: Shared, f: Fiber): Stepped {
    Stepped(if f.input.pending == [] then sh else Admitting(sh, true), AtSubmission(f, Shift))
  }

  function DoShift(sh: Shared, f: Fiber): Stepped {
    if f.input.pending == [] then Stepped(sh, AtSubmission(f, Head).(input := f.input.(next := None)))
    else
      var input := f.input.(next := Some(Later(f.input.pending[0])), pending := f.input.pending[1..]);
      Stepped(sh, AtSubmission(f, ShiftOpen).(input := input))
  }

  /** A run for the input and for each follow-up; then the ungated close, and the last drain under the gate. */
  function AdvanceSubmission(sh: Shared, a: nat, f: Fiber, pc: SubmissionPC): Stepped {
    match pc
    case Waiting => Stepped(sh, if f.admission.Receipted? then AtSubmission(f, Head) else f)
    case Head => DoHead(sh, f)
    case Commit => DoCommit(sh, a, f)
    case CountRun => DoCountRun(sh, f)
    case PullCheck => Stepped(sh, AtSubmission(f, if f.input.pending == [] then PullWait else CloseCheck))
    case PullWait => Lock(sh, a, f, AtSubmission(f, PullDrain))
    case PullDrain => DoPull(sh, f, PullUnlock)
    case PullUnlock => Unlock(sh, AtSubmission(f, CloseCheck))
    case CloseCheck => DoCloseCheck(sh, f)
    case LastWait => Lock(sh, a, f, AtSubmission(f, LastDrain))
    case LastDrain => DoPull(sh, f, LastUnlock)
    case LastUnlock => Unlock(sh, AtSubmission(f, Reopen))
    case Reopen => DoReopen(sh, f)
    case Shift => DoShift(sh, f)
    case ShiftOpen => Stepped(Admitting(sh, true), AtSubmission(f, Head))
  }

  // ----------------------------------------------- AgentTurn.applySteering

  function DoSteerDrain(sh: Shared, f: Fiber, late: bool): Stepped {
    Stepped(sh.(steering := []),
            AtSteering(f, late, SteerCommit).(input := f.input.(batch := sh.steering),
                                              run := f.run.(late := if late then |sh.steering| else f.run.late)))
  }

  function DoSteerCommit(sh: Shared, a: nat, f: Fiber, late: bool): Stepped {
    if f.input.batch == [] then Stepped(sh, AtSteering(f, late, SteerUnlock))
    else Stepped(Appended(sh, Applied(a, Steering, f.input.batch[0])),
                 f.(input := f.input.(batch := f.input.batch[1..])))
  }

  /** After the late drain the run is over, and returns whether it must be continued. */
  function DoSteerUnlock(sh: Shared, f: Fiber, late: bool): Stepped {
    Unlock(sh, if !late then AtRun(f, StartTurn)
               else AtSubmission(f, PullCheck)
                    .(continuations := f.continuations + (if f.run.late > 0 then 1 else 0)))
  }

  function AdvanceSteering(sh: Shared, a: nat, f: Fiber, late: bool, pc: SteerPC): Stepped {
    match pc
    case SteerWait => Lock(sh, a, f, AtSteering(f, late, SteerDrain))
    case SteerDrain => DoSteerDrain(sh, f, late)
    case SteerCommit => DoSteerCommit(sh, a, f, late)
    case SteerUnlock => DoSteerUnlock(sh, f, late)
  }

  // ---------------------------------- AgentRun.execute and AgentTurn.execute

  function DoStartRun(sh: Shared, f: Fiber): Stepped {
    Stepped(sh.(state := sh.state.(acceptingSteering := true)),
            AtSteering(f, false, SteerWait).(run := RunLocals(0, 0, false, 0, 0, None)))
  }

  /** The model call and its tools: the turn's work, or the failure of the fibre. */
  function DoThink(sh: Shared, a: nat, f: Fiber, outcome: Option<ToolBatch.Work>): Stepped {
    if outcome.None? then Leave(sh, a, f) else Stepped(sh, AtRun(f, CommitTurn).(run := f.run.(work := outcome)))
  }

  /** The uninterruptible commit. */
  function DoCommitTurn(sh: Shared, a: nat, f: Fiber): Stepped {
    if f.run.work.None? then Stepped(sh, f)
    else
      var turn := TurnDone(a, f.runs, f.run.turn, f.run.context, f.run.work.value);
      Stepped(Appended(sh, turn), AtRun(f, Record))
  }

  function DoRecord(sh: Shared, f: Fiber): Stepped {
    if f.run.work.None? then Stepped(sh, f)
    else Stepped(sh.(progress := sh.progress.(turns := sh.progress.turns + 1)),
                 AtRun(f, Decide).(run := f.run.(tools := f.run.tools + |f.run.work.value.calls|)))
  }

  /** What the loop is asked about, after a recorded turn. */
  function Asked(f: Fiber, ch: Choice): AgentLoop.Turn {
    AgentLoop.Turn(f.run.turn, f.run.tools, ch.elapsedMillis,
                   if f.run.work.Some? then |f.run.work.value.calls| else 0, ch.outputReported, ch.context)
  }

  /** The loop's decision, which is not used after the loop's own final turn. */
  function DoDecide(sh: Shared, a: nat, f: Fiber, verdict: AgentLoop.Verdict): Stepped {
    if f.run.finalTurn then Stepped(sh, AtRun(f, CloseWait))
    else
      match verdict
      case Raised(_) => Leave(sh, a, f)
      case Decided(Continue) => Stepped(sh, AtSteering(f, false, SteerWait))
      case Decided(Final(_, _)) => Stepped(sh, AtSteering(f, false, SteerWait).(run := f.run.(finalTurn := true)))
      case Decided(Stop(_, _)) => Stepped(sh, AtRun(f, CloseWait))
  }

  /** Turns until the loop says stop; then the gated close of steering, and the late drain. */
  function AdvanceRun(
    sh: Shared, a: nat, f: Fiber, pc: RunPC, outcome: Option<ToolBatch.Work>, verdict: AgentLoop.Verdict): Stepped
  {
    match pc
    case StartRun => DoStartRun(sh, f)
    case StartTurn => Stepped(sh, AtRun(f, Derive).(run := f.run.(turn := f.run.turn + 1)))
    case Derive => Stepped(sh, AtRun(f, Think).(run := f.run.(context := |sh.history|)))
    case Think => DoThink(sh, a, f, outcome)
    case CommitTurn => DoCommitTurn(sh, a, f)
    case Record => DoRecord(sh, f)
    case Decide => DoDecide(sh, a, f, verdict)
    case CloseWait => Lock(sh, a, f, AtRun(f, CloseFlag))
    case CloseFlag => Stepped(sh.(state := sh.state.(acceptingSteering := false)), AtRun(f, CloseUnlock))
    case CloseUnlock => Unlock(sh, AtSteering(f, true, SteerWait))
  }

  // ------------------------------------------------- AgentSession: release

  function DoReadFiber(sh: Shared, f: Fiber): Stepped {
    if sh.activeFiber.None? then Stepped(sh, AtRelease(f, ClearFiber))
    else Stepped(sh, AtRelease(f, ReadProgress).(exit := f.exit.(target := sh.activeFiber.value)))
  }

  function DoSetIdle(sh: Shared, f: Fiber): Stepped {
    var status := if sh.state.status.Closed? then Closed else Idle;
    Stepped(sh.(state := SessionState(status, sh.state.count, None, false, false)), AtRelease(f, DropSteering))
  }

  /** The withdrawal of admission and the two drains are three steps, under one permit. */
  function AdvanceRelease(sh: Shared, a: nat, f: Fiber, pc: ReleasePC): Stepped {
    match pc
    case ReadFiber => DoReadFiber(sh, f)
    case ReadProgress => Stepped(sh, AtRelease(f, Settle).(exit := f.exit.(landed := sh.progress)))
    case Settle => Stepped(sh.(settledFiber := Some(Settled(f.exit.target, f.exit.landed))), AtRelease(f, ClearFiber))
    case ClearFiber => Stepped(sh.(activeFiber := None), AtRelease(f, WaitGate))
    case WaitGate => Lock(sh, a, f, AtRelease(f, SetIdle))
    case SetIdle => DoSetIdle(sh, f)
    case DropSteering =>
      Stepped(sh.(steering := []), AtRelease(f, DropFollowUps).(steers := f.steers.(dropped := sh.steering)))
    case DropFollowUps =>
      Stepped(sh.(followUps := []), AtRelease(f, OpenGate).(follows := f.follows.(dropped := sh.followUps)))
    case OpenGate => Unlock(sh, f.(pc := Exited))
  }

  function DoAdvance(
    sh: Shared, a: nat, f: Fiber, outcome: Option<ToolBatch.Work>, verdict: AgentLoop.Verdict): Stepped
  {
    match f.pc
    case Unborn => Stepped(sh, f)
    case InSubmission(pc) => AdvanceSubmission(sh, a, f, pc)
    case InSteering(late, pc) => AdvanceSteering(sh, a, f, late, pc)
    case InRun(pc) => AdvanceRun(sh, a, f, pc, outcome, verdict)
    case InRelease(pc) => AdvanceRelease(sh, a, f, pc)
    case Exited => Stepped(sh, f)
  }

  /** An interrupt can reach the fibre once it is installed; `release` is a finalizer, and is not interrupted. */
  predicate Abortable(f: Fiber) {
    (f.admission.Installed? || f.admission.Receipted?) && (f.pc.InSubmission? || f.pc.InRun? || f.pc.InSteering?)
  }

  // ------------------------------------------------- AgentSession: callers

  function At(s: State, c: nat, k: Caller): State {
    s.(callers := s.callers[c := k])
  }

  function Gated(s: State, gate: Gate): State {
    s.(shared := s.shared.(gate := gate))
  }

  function LogOf(f: Fiber, kind: Kind): Log {
    match kind case Steering => f.steers case FollowUp => f.follows
  }

  function WithLog(f: Fiber, kind: Kind, log: Log): Fiber {
    match kind case Steering => f.(steers := log) case FollowUp => f.(follows := log)
  }

  function Queued(sh: Shared, kind: Kind, item: Item): Shared {
    match kind
    case Steering => sh.(steering := sh.steering + [item])
    case FollowUp => sh.(followUps := sh.followUps + [item])
  }

  predicate Accepts(st: SessionState, kind: Kind) {
    match kind case Steering => st.acceptingSteering case FollowUp => st.acceptingFollowUps
  }

  function DoOffer(s: State, c: nat, k: Caller): State
    requires k.Offering?
  {
    if k.sub !in s.fibers then s
    else
      var item := Item(k.sub, k.body);
      var f := s.fibers[k.sub];
      var log := LogOf(f, k.kind);
      State(Queued(s.shared, k.kind, item),
            s.fibers[k.sub := WithLog(f, k.kind, log.(accepted := log.accepted + [item]))],
            s.callers[c := k.(at := Offered)])
  }

  function DoAnnounce(s: State, c: nat, k: Caller): State
    requires k.Offering?
  {
    if k.sub !in s.fibers then s
    else
      var f := s.fibers[k.sub];
      var log := LogOf(f, k.kind);
      s.(fibers := s.fibers[k.sub := WithLog(f, k.kind, log.(announced := log.announced + [Item(k.sub, k.body)]))],
         callers := s.callers[c := k.(at := Announced)])
  }

  /** `steer` and `followUp`: `requireRunning`, then under the gate `stillActive`, the flag, the offer, the event. */
  function DoInput(s: State, c: nat, k: Caller): State
    requires k.Offering?
  {
    var st := s.shared.state;
    match k.at
    case Start =>
      if st.status.Running? && st.active.Some? then At(s, c, k.(at := Validated, sub := st.active.value))
      else At(s, c, k.(at := Refused))
    case Validated => if s.shared.gate.Free? then Gated(At(s, c, k.(at := Holding)), ByCaller(c)) else s
    case Holding =>
      if st.status.Running? && st.active == Some(k.sub) then At(s, c, k.(at := StillActive))
      else Gated(At(s, c, k.(at := Refused)), Free)
    case StillActive =>
      if Accepts(st, k.kind) then At(s, c, k.(at := Accepting)) else Gated(At(s, c, k.(at := Refused)), Free)
    case Accepting => DoOffer(s, c, k)
    case Offered => DoAnnounce(s, c, k)
    case Announced => Gated(At(s, c, k.(at := Accepted)), Free)
    case Accepted => s
    case Refused => s
  }

  function DoSnapshot(s: State, c: nat, k: Caller): State
    requires k.Snapshotting?
  {
    var st := s.shared.state;
    match k.seen
    case Before =>
      At(s, c, if st.status.Idle? then k.(seen := IdleSeen, count := st.count) else k.(seen := NotTaken))
    case IdleSeen => At(s, c, k.(seen := HistoryRead, history := s.shared.history))
    case HistoryRead => At(s, c, k.(seen := if st.status.Idle? && st.count == k.count then Taken else NotTaken))
    case Taken => s
    case NotTaken => s
  }

  function DoAwait(s: State, c: nat, k: Caller): State
    requires k.Awaiting?
  {
    var settled := s.shared.settledFiber;
    match k.found
    case First => At(s, c, k.(found := if s.shared.activeFiber == Some(k.sub) then FoundLive else Second))
    case Second =>
      At(s, c, k.(found := if settled.Some? && settled.value.sub == k.sub
                           then FoundSettled(settled.value.progress) else NotFound))
    case FoundLive =>
      if k.sub in s.fibers && s.fibers[k.sub].pc.Exited? && !s.fibers[k.sub].exit.completed
      then At(s, c, k.(found := Landed(s.shared.progress))) else s
    case _ => s
  }

  function DoProceed(s: State, c: nat, k: Caller): State {
    match k
    case Offering(_, _, _, _) => DoInput(s, c, k)
    case Snapshotting(_, _, _) => DoSnapshot(s, c, k)
    case Awaiting(_, _) => DoAwait(s, c, k)
  }

  /** A caller starts at its beginning; `awaitSubmission` is called with the id of a returned receipt. */
  predicate MayCall(s: State, c: nat, k: Caller) {
    && c !in s.callers
    && match k
       case Offering(_, _, _, at) => at == Start
       case Snapshotting(_, _, seen) => seen == Before
       case Awaiting(a, found) => found == First && a in s.fibers && s.fibers[a].admission.Receipted?
  }

  function DoCall(s: State, c: nat, k: Caller): State {
    if MayCall(s, c, k) then At(s, c, k) else s
  }

  // --------------------------------------------------------------- schedules

  function Committed(s: State, a: nat, r: Stepped): State {
    s.(shared := r.shared, fibers := s.fibers[a := r.fiber])
  }

  /** What a turn's tools come to, withheld as its run has decided. */
  function OutcomeOf(f: Fiber, ch: Choice): (w: Option<ToolBatch.Work>)
    ensures w.Some? ==> ToolBatch.Matched(w.value) && w.value.withheld == f.run.finalTurn
  {
    ToolBatch.TurnOutcome(ch.batch.(offer := ch.batch.offer.(withheld := f.run.finalTurn)))
  }

  function Advanced(s: State, a: nat, outcome: Option<ToolBatch.Work>, ch: Choice, loop: AgentLoop.Loop): State
    requires a in s.fibers
  {
    var f := s.fibers[a];
    Committed(s, a, DoAdvance(s.shared, a, f, outcome, AgentLoop.Decide(loop, Asked(f, ch)).verdict))
  }

  /** One step of a schedule. An action that is not enabled changes nothing. */
  function Step(s: State, act: Act, loop: AgentLoop.Loop): State {
    match act
    case Claim(body) => DoClaim(s, body)
    case Admit(a) => if a in s.fibers then Committed(s, a, DoAdmit(s.shared, a, s.fibers[a])) else s
    case Advance(a, ch) => if a in s.fibers then Advanced(s, a, OutcomeOf(s.fibers[a], ch), ch, loop) else s
    case Abort(a) =>
      if a in s.fibers && Abortable(s.fibers[a]) then Committed(s, a, Leave(s.shared, a, s.fibers[a])) else s
    case Call(c, k) => DoCall(s, c, k)
    case Proceed(c) => if c in s.callers then DoProceed(s, c, s.callers[c]) else s
    case CloseSession => s.(shared := s.shared.(state := s.shared.state.(status := Closed)))
  }

  /** The state after a schedule; every sequence of actions is one. */
  function After(seed: seq<nat>, acts: seq<Act>, loop: AgentLoop.Loop): State
    decreases |acts|
  {
    if acts == [] then Initially(seed) else Step(After(seed, acts[..|acts| - 1], loop), acts[|acts| - 1], loop)
  }

  lemma AfterMore(seed: seq<nat>, acts: seq<Act>, more: seq<Act>, loop: AgentLoop.Loop)
    requires more != []
    ensures After(seed, acts + more, loop) == Step(After(seed, acts + more[..|more| - 1], loop), more[|more| - 1], loop)
  {
    LastOfMore(acts, more);
  }

  lemma LastOfMore(acts: seq<Act>, more: seq<Act>)
    requires more != []
    ensures var all := acts + more;
            all != [] && all[..|all| - 1] == acts + more[..|more| - 1] && all[|all| - 1] == more[|more| - 1]
  {
  }
}
