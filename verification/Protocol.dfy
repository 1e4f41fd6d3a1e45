/** The durable send protocol as a whole: one journal slot changed only by
    compare and swap, any number of send and recovery calls that interleave,
    fail, or crash at every step, a provider that may forward a message at any
    later time, and a chain with a lagging index
    (src/engine/send.rs, send_boc.rs, sign_message.rs, resolve.rs, resolution.rs). */
module Protocol {
  import opened Basics
  import opened Journal
  import opened SendReducer
  import opened ResolutionRules
  import opened ChainModel

  /** Wallet identity, resolver margin, and the bound on the index lag. */
  datatype Config = Config(owner: Owner, margin: u64, lag: nat)

  /** One record stored in the slot, with the call whose message it holds and
      whether an explicit override stored it over an unsettled record. */
  datatype Write = Write(record: JournalRecord, attempt: nat, forced: bool)

  /** Who runs the resolver: a send that found a pending record, or recovery. */
  datatype Caller = ForSend(workflow: Workflow) | Standalone

  /** A public call: a send, a caller-signed send (no secret), an internal
      signature, or the recovery of a pending send. */
  datatype Call = Send(request: Request, kind: Kind, hasSecret: bool) | Recover

  /** What a finished call reported. */
  datatype Outcome =
    | Delivered(stage: Stage, version: u64)
    | Settled(pending: Pending, resolution: Resolution, journal: JournalRecord)
    | NothingPending
    | DefiniteFailure
    | JournalTaken
    | StillBlocked
    | OutcomeUnknown

  /** A call between two awaits. */
  datatype Task =
    | Loading(caller: Caller)
    | ReadingTime(caller: Caller, record: Option<JournalRecord>, found: Option<Pending>)
    | Resolving(caller: Caller, pending: Pending, time: u64, read: Read)
    | Persisting(caller: Caller, pending: Pending, resolution: Resolution, tries: nat)
    | Unlocked(workflow: Workflow)
    | Committing(workflow: Workflow, mutation: Mutation)
    | Releasing(workflow: Workflow)
    | InFlight(workflow: Workflow)
    | Closing(workflow: Workflow, mutation: Mutation)
    | Ended(outcome: Outcome)

  /** A message on the network, put there by a call's hand-off or by somebody
      else who holds the same signed message. */
  datatype Broadcast = Broadcast(message: Message, source: Option<nat>)

  datatype World = World(
    chain: Chain,
    history: seq<Write>,
    tasks: map<nat, Task>,
    spawned: nat,
    handed: map<nat, Message>,
    rejected: set<nat>,
    network: set<Broadcast>)

  datatype WorldEvent =
    | Clock(now: nat)
    | Index(upTo: nat)
    | Execute(executed: Message, lt: u64)
    | Outside(foreign: Message)
    | Take(attempt: nat)
    | Spawn(call: Call)
    | Crash(task: nat)
    | Load(task: nat)
    | ReadTime(task: nat, time: u64)
    | ReadIndex(task: nat, mempool: MempoolAnswer)
    | Sign(task: nat, account: FreshAccount, prepared: Prepared)
    | Swap(task: nat, fault: Fault)
    | Release(task: nat)
    | Answer(task: nat, response: SendResponse)
    | Abort(task: nat)

  function Start(clock: nat): World {
    World(Chain([], clock, 0), [], map[], 0, map[], {}, {})
  }

  function Slot(history: seq<Write>): Option<JournalRecord> {
    if history == [] then None else Some(history[|history| - 1].record)
  }

  /** A compare and swap on the slot, remembered in the history. */
  function Store(history: seq<Write>, mutation: Mutation, attempt: nat, forced: bool): (seq<Write>, CasResult) {
    var (_, result) := CompareExchange(Slot(history), mutation);
    (if result.applied then history + [Write(mutation.replacement, attempt, forced)] else history, result)
  }

  /** A send that may go on signs after the loaded record, or is blocked. */
  function AcceptJournal(workflow: Workflow, record: Option<JournalRecord>): Task {
    var reduced := LoadedJournal(workflow, record);
    match reduced.answer
    case Success(_) => Unlocked(reduced.workflow)
    case Failure(error) =>
      if error == PreviousSubmissionUnresolved then Ended(StillBlocked) else Ended(DefiniteFailure)
  }

  function AfterLoad(caller: Caller, slot: Option<JournalRecord>, owner: Owner): Task {
    match slot
    case None => if caller.Standalone? then Ended(NothingPending) else ReadingTime(caller, None, None)
    case Some(record) =>
      match PendingSendRecord(record, owner)
      case Failure(_) => Ended(DefiniteFailure)
      case Success(found) =>
        if caller.Standalone? && found.None? then Ended(NothingPending) else ReadingTime(caller, slot, found)
  }

  /** An explicit override skips the resolver for a complete signed message. */
  predicate Overrides(caller: Caller, pending: Pending) {
    caller.ForSend? && caller.workflow.request.force && pending.durable.stage.PermitsForcedReplacement()
  }

  function AfterTime(caller: Caller, record: Option<JournalRecord>, found: Option<Pending>, time: u64): Option<Task> {
    if found.Some? && !Overrides(caller, found.value)
    then Some(Resolving(caller, found.value, time, FirstRead(found.value.durable.message.kind)))
    else if caller.ForSend? then Some(AcceptJournal(caller.workflow, record))
    else None
  }

  function AfterVerdict(caller: Caller, pending: Pending, time: u64, verdict: Verdict): Task {
    match verdict
    case Ask(next) => Resolving(caller, pending, time, next)
    case Conclude(resolution) =>
      if !resolution.StillPending? then Persisting(caller, pending, resolution, PERSIST_TRIES)
      else if caller.ForSend? then Ended(StillBlocked)
      else Ended(Settled(pending, resolution, pending.journal))
  }

  function AfterPersist(caller: Caller, pending: Pending, resolution: Resolution, tries: nat, step: PersistStep): Task {
    match step
    case GiveUp => Ended(DefiniteFailure)
    case Retry(now) =>
      if tries <= 1 then Ended(DefiniteFailure) else Persisting(caller, now, resolution, tries - 1)
    case Done(settled, journal) =>
      if caller.ForSend? then AcceptJournal(caller.workflow, Some(journal))
      else Ended(Settled(pending, settled, journal))
  }

  /** Account check, authorization, and signature, up to the durable commit.
      A caller-signed message skips the secret. */
  function SignedTask(workflow: Workflow, account: FreshAccount, prepared: Prepared): Task {
    var loaded := if workflow.hasSecret then LoadedFreshAccount(workflow, account)
                  else LoadedPreparedAccount(workflow, account);
    if loaded.answer.Failure? then Ended(DefiniteFailure)
    else
      var ready := if workflow.hasSecret then Authorized(loaded.workflow) else loaded;
      if ready.answer.Failure? then Ended(DefiniteFailure)
      else
        var signed := PreparedSend(ready.workflow, prepared);
        if signed.answer.Failure? || !signed.answer.value.PersistJournal? then Ended(DefiniteFailure)
        else Committing(signed.workflow, signed.answer.value.mutation)
  }

  function AfterCommit(workflow: Workflow, result: CasResult): Task {
    var reduced := PersistedJournal(workflow, result);
    match reduced.answer
    case Failure(error) =>
      if result.applied then Ended(OutcomeUnknown)
      else if error == Conflicting then Ended(JournalTaken)
      else Ended(DefiniteFailure)
    case Success(directive) =>
      if directive.HandOff? then Ended(Delivered(HandedOff, reduced.workflow.journalVersion.GetOr(0)))
      else if directive.Submit? then
        var started := StartedSubmission(reduced.workflow);
        if started.answer.Failure? then Ended(OutcomeUnknown) else Releasing(started.workflow)
      else Ended(OutcomeUnknown)
  }

  function AfterReply(workflow: Workflow, reply: Reply): Task {
    var reduced := Replied(workflow, reply);
    if reduced.answer.Failure? || !reduced.answer.value.PersistJournal? then Ended(OutcomeUnknown)
    else Closing(reduced.workflow, reduced.answer.value.mutation)
  }

  function AfterClose(workflow: Workflow, result: CasResult): Task {
    var reduced := PersistedJournal(workflow, result);
    if reduced.answer.Failure? then Ended(OutcomeUnknown)
    else Ended(Delivered(reduced.workflow.stage, reduced.workflow.journalVersion.GetOr(0)))
  }

  /** Every unindexed transaction is at most `lag` seconds old. */
  predicate CaughtUp(c: Chain, lag: nat) {
    forall i :: c.indexed <= i < |c.log| ==> c.log[i].time + lag >= c.clock
  }

  function ChainStep(cfg: Config, w: World, e: WorldEvent): Option<World>
    requires e.Clock? || e.Index? || e.Execute?
  {
    var c := w.chain;
    match e
    case Clock(now) =>
      if c.clock <= now && CaughtUp(c.(clock := now), cfg.lag) then Some(w.(chain := c.(clock := now))) else None
    case Index(upTo) =>
      if c.indexed <= upTo <= |c.log| then Some(w.(chain := c.(indexed := upTo))) else None
    case Execute(m, lt) =>
      if m.seqno == |c.log| && c.clock <= m.validUntil && OnNetwork(w.network, m)
      then Some(w.(chain := c.(log := c.log + [Entry(m, c.clock, lt)])))
      else None
  }

  predicate OnNetwork(network: set<Broadcast>, m: Message) {
    exists b :: b in network && b.message == m
  }

  function CallerOf(cfg: Config, call: Call): Caller {
    match call
    case Recover => Standalone
    case Send(request, kind, hasSecret) =>
      ForSend(BeginSend(NewWorkflow(cfg.owner, request, kind, hasSecret)).workflow)
  }

  function Put(w: World, id: nat, task: Task): World {
    w.(tasks := w.tasks[id := task])
  }

  /** The call whose message the slot currently holds. */
  function SlotAttempt(history: seq<Write>): nat {
    if history == [] then 0 else history[|history| - 1].attempt
  }

  predicate OverwritesUnsettled(history: seq<Write>) {
    && history != []
    && var record := history[|history| - 1].record;
       record.payload.Encoded? && !record.payload.record.stage.PermitsReplacement()
  }

  function SwapStep(w: World, id: nat, task: Task, fault: Fault): Option<World> {
    match task
    case Persisting(caller, pending, resolution, tries) =>
      var mutation := TerminalMutation(pending, resolution);
      if mutation.Failure? || mutation.value.None? || fault == FailsBefore then Some(Put(w, id, Ended(DefiniteFailure)))
      else
        var (history, result) := Store(w.history, mutation.value.value, SlotAttempt(w.history), false);
        var step := AfterCas(pending, resolution, mutation.value.value.replacement, result);
        var next := if fault == FailsAfter then Ended(DefiniteFailure)
                    else AfterPersist(caller, pending, resolution, tries, step);
        Some(Put(w, id, next).(history := history))
    case Committing(workflow, mutation) =>
      if fault == FailsBefore then Some(Put(w, id, Ended(OutcomeUnknown)))
      else
        var (history, result) := Store(w.history, mutation, id, OverwritesUnsettled(w.history));
        var next := if fault == FailsAfter then Ended(OutcomeUnknown) else AfterCommit(workflow, result);
        var stored := Put(w, id, next).(history := history);
        if next.Ended? && next.outcome.Delivered? && workflow.prepared.Some?
        then Some(stored.(handed := w.handed[id := workflow.prepared.value.message]))
        else Some(stored)
    case Closing(workflow, mutation) =>
      if fault == FailsBefore then Some(Put(w, id, Ended(OutcomeUnknown)))
      else
        var (history, result) := Store(w.history, mutation, id, false);
        var next := if fault == FailsAfter then Ended(OutcomeUnknown) else AfterClose(workflow, result);
        Some(Put(w, id, next).(history := history))
    case _ => None
  }

  function ReplyStep(w: World, id: nat, workflow: Workflow, response: SendResponse): Option<World> {
    var reply := ClassifyResponse(response);
    var next := Put(w, id, AfterReply(workflow, reply));
    if !reply.Rejected? then Some(next)
    else if id !in w.handed || Broadcast(w.handed[id], Some(id)) in w.network then None
    else Some(next.(rejected := w.rejected + {id}))
  }

  /** A host or provider failure before anything durable. */
  predicate MayAbort(task: Task) {
    task.Loading? || task.ReadingTime? || task.Resolving? || task.Persisting? || task.Unlocked? || task.Committing?
  }

  function TaskStep(cfg: Config, w: World, id: nat, task: Task, e: WorldEvent): Option<World> {
    match (e, task)
    case (Load(_), Loading(caller)) => Some(Put(w, id, AfterLoad(caller, Slot(w.history), cfg.owner)))
    case (ReadTime(_, time), ReadingTime(caller, record, found)) =>
      var next := AfterTime(caller, record, found, time);
      if time <= w.chain.clock && next.Some? then Some(Put(w, id, next.value)) else None
    case (ReadIndex(_, mempool), Resolving(caller, pending, time, read)) =>
      if w.chain.indexed > |w.chain.log| then None
      else Some(Put(w, id, AfterVerdict(caller, pending, time,
                                        ReadVerdict(w.chain, pending, time, cfg.margin, read, mempool))))
    case (Sign(_, account, prepared), Unlocked(workflow)) => Some(Put(w, id, SignedTask(workflow, account, prepared)))
    case (Swap(_, fault), _) => SwapStep(w, id, task, fault)
    case (Release(_), Releasing(workflow)) =>
      if workflow.prepared.None? then None
      else Some(Put(w, id, InFlight(workflow)).(handed := w.handed[id := workflow.prepared.value.message]))
    case (Answer(_, response), InFlight(workflow)) => ReplyStep(w, id, workflow, response)
    case (Abort(_), _) => if MayAbort(task) then Some(Put(w, id, Ended(DefiniteFailure))) else None
    case _ => None
  }

  /** One step of the whole system; `None` when the event is not possible. */
  function Step(cfg: Config, w: World, e: WorldEvent): Option<World> {
    match e
    case Clock(_) => ChainStep(cfg, w, e)
    case Index(_) => ChainStep(cfg, w, e)
    case Execute(_, _) => ChainStep(cfg, w, e)
    case Outside(m) => Some(w.(network := w.network + {Broadcast(m, None)}))
    case Take(a) =>
      if a in w.handed && a !in w.rejected
      then Some(w.(network := w.network + {Broadcast(w.handed[a], Some(a))}))
      else None
    case Spawn(call) =>
      Some(Put(w, w.spawned, Loading(CallerOf(cfg, call))).(spawned := w.spawned + 1))
    case Crash(id) => if id in w.tasks then Some(w.(tasks := w.tasks - {id})) else None
    case _ => if e.task in w.tasks then TaskStep(cfg, w, e.task, w.tasks[e.task], e) else None
  }

  /** A whole run; `None` when some event is not possible where it stands. */
  function Run(cfg: Config, w: World, events: seq<WorldEvent>): Option<World>
    decreases |events|
  {
    if events == [] then Some(w)
    else
      match Step(cfg, w, events[0])
      case None => None
      case Some(v) => Run(cfg, v, events[1..])
  }
}
