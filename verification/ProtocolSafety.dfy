/** Safety of the durable send protocol over every run. */
module ProtocolSafety {
  import opened Basics
  import opened Journal
  import opened SendReducer
  import opened ResolutionRules
  import opened ChainModel
  import opened Protocol

  // ----- what the slot history looks like -----

  function Body(write: Write): DurableRecord
    requires write.record.payload.Encoded?
  {
    write.record.payload.record
  }

  /** The stages the engine ever stores. */
  predicate Storable(stage: Stage) {
    Opening(stage) || Answered(stage) || Evidence(stage)
  }

  predicate WellFormed(cfg: Config, write: Write, position: nat) {
    && write.record.version as int == position + 1
    && write.record.payload.Encoded?
    && Decode(write.record).Success?
    && Body(write).owner == cfg.owner
    && Storable(Body(write).stage)
  }

  /** Two records of the same operation and signed message. */
  predicate SameMessage(a: DurableRecord, b: DurableRecord) {
    && a.operationId == b.operationId && a.owner == b.owner && a.message == b.message
    && a.batch == b.batch && a.needsStateInit == b.needsStateInit
  }

  /** A complete signed message made durable. */
  predicate Opening(stage: Stage) {
    stage.ReadyToSubmit? || stage.HandedOff?
  }

  /** The provider's answer to a submission. */
  predicate Answered(stage: Stage) {
    stage.Submitted? || stage.SubmissionUnknown? || stage.Failed?
  }

  /** Terminal evidence from the chain. */
  predicate Evidence(stage: Stage) {
    stage.Confirmed? || stage.Replaced? || stage.SequenceNumberConsumed? || stage.Expired?
  }

  /** The only ways one stored record may follow another: the provider's answer
      over the call's own prepared record, terminal evidence over an unsettled
      record of the same message, a new message over a settled record, or a new
      message over an unsettled one by explicit override. */
  predicate Follows(a: Write, b: Write)
    requires a.record.payload.Encoded? && b.record.payload.Encoded?
  {
    if a.attempt == b.attempt then
      && !b.forced && SameMessage(Body(a), Body(b))
      && if Evidence(Body(b).stage) then !Body(a).stage.PermitsReplacement()
         else Body(a).stage == ReadyToSubmit && Answered(Body(b).stage)
    else
      && Opening(Body(b).stage)
      && if b.forced then Body(a).stage.PermitsForcedReplacement() else Body(a).stage.PermitsReplacement()
  }

  /** A settled record tells the truth: resolver evidence holds on the chain, and
      a failed record belongs to a call the provider explicitly rejected. */
  ghost predicate Truthful(cfg: Config, c: Chain, rejected: set<nat>, write: Write)
    requires write.record.payload.Encoded?
  {
    && (Body(write).stage == Stage.Failed ==> write.attempt in rejected)
    && match TerminalSendResolution(write.record, cfg.owner)
       case Success(Some(r)) => Holds(c, Body(write).message, r, cfg.margin, cfg.lag)
       case _ => true
  }

  ghost predicate RecordOk(cfg: Config, w: World, i: nat)
    requires i < |w.history|
  {
    && WellFormed(cfg, w.history[i], i)
    && w.history[i].attempt < w.spawned
    && Truthful(cfg, w.chain, w.rejected, w.history[i])
  }

  /** The first record opens the slot; every later one follows its predecessor. */
  predicate LinkOk(history: seq<Write>, i: nat)
    requires i < |history|
  {
    && history[i].record.payload.Encoded?
    && if i == 0 then Opening(Body(history[0]).stage) && !history[0].forced
       else history[i - 1].record.payload.Encoded? && Follows(history[i - 1], history[i])
  }

  /** The records of one call stand together. */
  predicate Contiguous(history: seq<Write>) {
    forall i, j :: 0 <= i < j < |history| && history[i].attempt == history[j].attempt ==>
      history[j - 1].attempt == history[j].attempt
  }

  ghost predicate HistoryOk(cfg: Config, w: World) {
    && (forall i :: 0 <= i < |w.history| ==> RecordOk(cfg, w, i))
    && (forall i :: 0 <= i < |w.history| ==> LinkOk(w.history, i))
    && Contiguous(w.history)
  }

  // ----- hand-off and network -----

  /** The call's message was stored in the slot. */
  ghost predicate Recorded(history: seq<Write>, attempt: nat, m: Message) {
    exists i :: 0 <= i < |history| && history[i].attempt == attempt
                && history[i].record.payload.Encoded? && Body(history[i]).message == m
  }

  ghost predicate HandedOk(handed: map<nat, Message>, history: seq<Write>, spawned: nat) {
    forall a :: a in handed ==> a < spawned && Recorded(history, a, handed[a])
  }

  /** Rejected calls were handed off; what calls put on the network is their own
      message, and no rejected call put anything there. */
  ghost predicate NetworkOk(handed: map<nat, Message>, rejected: set<nat>, network: set<Broadcast>) {
    && rejected <= handed.Keys
    && (forall b :: b in network && b.source.Some? ==>
          && b.source.value in handed && handed[b.source.value] == b.message
          && b.source.value !in rejected)
  }

  ghost predicate LogOnNetwork(log: seq<Entry>, network: set<Broadcast>) {
    forall i :: 0 <= i < |log| ==> OnNetwork(network, log[i].message)
  }

  ghost predicate HandOffOk(w: World) {
    && HandedOk(w.handed, w.history, w.spawned)
    && NetworkOk(w.handed, w.rejected, w.network)
    && LogOnNetwork(w.chain.log, w.network)
  }

  // ----- one call -----

  predicate At(history: seq<Write>, record: JournalRecord) {
    1 <= record.version <= |history| && history[record.version - 1].record == record
  }

  predicate PendingOk(cfg: Config, history: seq<Write>, p: Pending) {
    At(history, p.journal) && PendingSendRecord(p.journal, cfg.owner) == Success(Some(p))
  }

  ghost predicate Unwritten(w: World, id: nat) {
    && id !in w.handed
    && (forall i :: 0 <= i < |w.history| ==> w.history[i].attempt != id)
  }

  predicate CallerOk(cfg: Config, caller: Caller) {
    caller.ForSend? ==> caller.workflow.owner == cfg.owner && caller.workflow.stage == LoadingJournal
  }

  /** The version the send will overwrite names a settled record, or an unsettled
      one under an override. */
  predicate VersionOk(history: seq<Write>, wf: Workflow) {
    wf.journalVersion.Some? ==>
      var v := wf.journalVersion.value;
      && 1 <= v <= |history|
      && history[v - 1].record.payload.Encoded?
      && var stage := Body(history[v - 1]).stage;
         stage.PermitsReplacement() || (wf.request.force && stage.PermitsForcedReplacement())
  }

  predicate PreparedOk(cfg: Config, wf: Workflow) {
    && wf.prepared.Some? && wf.prepared.value.owner == cfg.owner
    && wf.prepared.value.message.kind == wf.kind
  }

  /** The call's own prepared record, at the version its reducer remembers. */
  predicate OwnRecord(cfg: Config, history: seq<Write>, id: nat, wf: Workflow) {
    && PreparedOk(cfg, wf) && wf.kind == External
    && wf.journalVersion.Some?
    && var v := wf.journalVersion.value;
       && 1 <= v <= |history|
       && history[v - 1].attempt == id
       && history[v - 1].record.payload.Encoded?
       && Body(history[v - 1]).stage == ReadyToSubmit
       && SameMessage(Body(history[v - 1]), RecordOf(wf))
  }

  ghost predicate OutcomeOk(cfg: Config, w: World, id: nat, outcome: Outcome) {
    match outcome
    case Delivered(stage, version) =>
      && id in w.handed
      && 1 <= version <= |w.history|
      && w.history[version - 1].attempt == id
      && w.history[version - 1].record.payload.Encoded?
      && Body(w.history[version - 1]).stage == stage
      && Body(w.history[version - 1]).message == w.handed[id]
    case Settled(pending, resolution, journal) =>
      && Unwritten(w, id)
      && PendingOk(cfg, w.history, pending)
      && At(w.history, journal) && journal.payload.Encoded?
      && (resolution.StillPending? ==> journal == pending.journal)
      && (!resolution.StillPending? ==>
            TerminalSendResolution(journal, cfg.owner) == Success(Some(resolution)))
    case OutcomeUnknown => true
    case _ => Unwritten(w, id)
  }

  ghost predicate TaskOk(cfg: Config, w: World, id: nat, task: Task) {
    match task
    case Loading(caller) => Unwritten(w, id) && CallerOk(cfg, caller)
    case ReadingTime(caller, record, found) =>
      && Unwritten(w, id) && CallerOk(cfg, caller)
      && (record.Some? ==> At(w.history, record.value))
      && (found.Some? ==> PendingOk(cfg, w.history, found.value))
    case Resolving(caller, pending, time, read) =>
      && Unwritten(w, id) && CallerOk(cfg, caller) && PendingOk(cfg, w.history, pending)
      && Established(w.chain, pending.durable.message, time, cfg.margin, read, cfg.lag)
    case Persisting(caller, pending, resolution, _) =>
      && Unwritten(w, id) && CallerOk(cfg, caller) && PendingOk(cfg, w.history, pending)
      && !resolution.StillPending?
      && Holds(w.chain, pending.durable.message, resolution, cfg.margin, cfg.lag)
    case Unlocked(wf) =>
      && Unwritten(w, id) && wf.owner == cfg.owner
      && wf.stage == FetchingFreshAccount && VersionOk(w.history, wf)
    case Committing(wf, mutation) =>
      && Unwritten(w, id) && wf.owner == cfg.owner && PreparedOk(cfg, wf)
      && wf.stage == PersistingPrepared && VersionOk(w.history, wf)
      && PersistDirective(wf) == Success(PersistJournal(mutation))
    case Releasing(wf) =>
      id !in w.handed && wf.stage == Submitting && OwnRecord(cfg, w.history, id, wf)
    case InFlight(wf) =>
      && wf.stage == Submitting && OwnRecord(cfg, w.history, id, wf)
      && id in w.handed && w.handed[id] == wf.prepared.value.message
    case Closing(wf, mutation) =>
      && Answered(wf.stage) && OwnRecord(cfg, w.history, id, wf)
      && id in w.handed && w.handed[id] == wf.prepared.value.message
      && (wf.stage == Stage.Failed ==> id in w.rejected)
      && PersistDirective(wf) == Success(PersistJournal(mutation))
    case Ended(outcome) => OutcomeOk(cfg, w, id, outcome)
  }

  ghost predicate TasksOk(cfg: Config, w: World) {
    forall id :: id in w.tasks ==> id < w.spawned && TaskOk(cfg, w, id, w.tasks[id])
  }

  ghost predicate Inv(cfg: Config, w: World) {
    Valid(w.chain, cfg.lag) && HistoryOk(cfg, w) && HandOffOk(w) && TasksOk(cfg, w)
  }

  // ----- frames -----

  /** Everything durable in `w` is still there in `v`. */
  ghost predicate Grows(cfg: Config, w: World, v: World) {
    && Valid(v.chain, cfg.lag) && Extends(w.chain, v.chain)
    && w.history <= v.history
    && w.rejected <= v.rejected
    && w.handed.Keys <= v.handed.Keys
    && (forall a :: a in w.handed ==> v.handed[a] == w.handed[a])
  }

  /** The slot once held a message of this call. */
  ghost predicate Attempted(history: seq<Write>, id: nat) {
    exists i :: 0 <= i < |history| && history[i].attempt == id
  }

  /** The step handed nothing out and started no record for call `id`. */
  ghost predicate Untouched(w: World, v: World, id: nat) {
    && (id in v.handed ==> id in w.handed)
    && (Attempted(v.history, id) ==> Attempted(w.history, id))
  }

  lemma FrameTask(cfg: Config, w: World, v: World, id: nat, task: Task)
    requires Grows(cfg, w, v) && Untouched(w, v, id) && TaskOk(cfg, w, id, task)
    ensures TaskOk(cfg, v, id, task)
  {
    match task {
      case Resolving(_, pending, time, read) =>
        EstablishedStable(w.chain, v.chain, pending.durable.message, time, cfg.margin, read, cfg.lag);
      case Persisting(_, pending, resolution, _) =>
        HoldsStable(w.chain, v.chain, pending.durable.message, resolution, cfg.margin, cfg.lag);
      case _ =>
    }
  }

  lemma FrameTasks(cfg: Config, w: World, v: World)
    requires TasksOk(cfg, w) && Grows(cfg, w, v) && w.spawned <= v.spawned && v.tasks == w.tasks
    requires forall j :: j in w.tasks ==> Untouched(w, v, j)
    ensures TasksOk(cfg, v)
  {
    forall j | j in v.tasks
      ensures j < v.spawned && TaskOk(cfg, v, j, v.tasks[j])
    {
      FrameTask(cfg, w, v, j, w.tasks[j]);
    }
  }

  /** A step of call `id`: the other calls keep what they rely on. */
  lemma PutTask(cfg: Config, w: World, v: World, id: nat, task: Task)
    requires TasksOk(cfg, w) && Grows(cfg, w, v) && w.spawned == v.spawned
    requires id in w.tasks && v.tasks == w.tasks[id := task]
    requires forall j :: j in w.tasks && j != id ==> Untouched(w, v, j)
    requires TaskOk(cfg, v, id, task)
    ensures TasksOk(cfg, v)
  {
    forall j | j in v.tasks
      ensures j < v.spawned && TaskOk(cfg, v, j, v.tasks[j])
    {
      if j != id {
        FrameTask(cfg, w, v, j, w.tasks[j]);
      }
    }
  }

  lemma TruthfulStable(cfg: Config, c: Chain, d: Chain, more: set<nat>, rejected: set<nat>, write: Write)
    requires write.record.payload.Encoded?
    requires Valid(d, cfg.lag) && Extends(c, d) && rejected <= more
    requires Truthful(cfg, c, rejected, write)
    ensures Truthful(cfg, d, more, write)
  {
    match TerminalSendResolution(write.record, cfg.owner) {
      case Success(Some(r)) => HoldsStable(c, d, Body(write).message, r, cfg.margin, cfg.lag);
      case _ =>
    }
  }

  /** The history stays in order while the chain and the rejections grow. */
  lemma FrameHistory(cfg: Config, w: World, v: World)
    requires HistoryOk(cfg, w) && Grows(cfg, w, v) && w.history == v.history && w.spawned <= v.spawned
    ensures HistoryOk(cfg, v)
  {
    forall i | 0 <= i < |v.history|
      ensures RecordOk(cfg, v, i)
    {
      assert RecordOk(cfg, w, i);
      TruthfulStable(cfg, w.chain, v.chain, v.rejected, w.rejected, w.history[i]);
    }
  }

  /** May be stored next: it follows the slot, is true, and either continues the
      slot's own call or belongs to a call that never wrote before. */
  ghost predicate Appendable(cfg: Config, w: World, b: Write) {
    && WellFormed(cfg, b, |w.history|)
    && b.attempt < w.spawned
    && Truthful(cfg, w.chain, w.rejected, b)
    && LinkOk(w.history + [b], |w.history|)
    && (b.attempt == SlotAttempt(w.history) || !Attempted(w.history, b.attempt))
  }

  lemma AppendContiguous(history: seq<Write>, b: Write)
    requires Contiguous(history)
    requires b.attempt == SlotAttempt(history) || !Attempted(history, b.attempt)
    ensures Contiguous(history + [b])
  {
    var longer := history + [b];
    forall i, j | 0 <= i < j < |longer| && longer[i].attempt == longer[j].attempt
      ensures longer[j - 1].attempt == longer[j].attempt
    {
      if j == |history| {
        assert history[i].attempt == b.attempt;
      } else {
        assert history[i].attempt == history[j].attempt;
      }
    }
  }

  lemma AppendWrite(cfg: Config, w: World, v: World, b: Write)
    requires HistoryOk(cfg, w) && Appendable(cfg, w, b)
    requires v.history == w.history + [b] && v.chain == w.chain && v.rejected == w.rejected && v.spawned == w.spawned
    ensures HistoryOk(cfg, v)
  {
    var n := |w.history|;
    AppendContiguous(w.history, b);
    forall i | 0 <= i < |v.history|
      ensures RecordOk(cfg, v, i) && LinkOk(v.history, i)
    {
      if i < n {
        assert RecordOk(cfg, w, i) && LinkOk(w.history, i);
        assert v.history[i] == w.history[i];
      }
    }
  }

  lemma FrameHanded(handed: map<nat, Message>, h: seq<Write>, g: seq<Write>, spawned: nat, more: nat)
    requires HandedOk(handed, h, spawned) && h <= g && spawned <= more
    ensures HandedOk(handed, g, more)
  {
    forall a | a in handed
      ensures a < more && Recorded(g, a, handed[a])
    {
      RecordedStable(h, g, a, handed[a]);
    }
  }

  lemma RecordedStable(h: seq<Write>, g: seq<Write>, a: nat, m: Message)
    requires h <= g && Recorded(h, a, m)
    ensures Recorded(g, a, m)
  {
    var i :| 0 <= i < |h| && h[i].attempt == a && h[i].record.payload.Encoded? && Body(h[i]).message == m;
    assert g[i] == h[i];
  }

  // ----- chain and network steps -----

  lemma ChainKeepsInv(cfg: Config, w: World, e: WorldEvent)
    requires Inv(cfg, w) && (e.Clock? || e.Index? || e.Execute?)
    requires ChainStep(cfg, w, e).Some?
    ensures Inv(cfg, ChainStep(cfg, w, e).value)
    ensures Grows(cfg, w, ChainStep(cfg, w, e).value)
  {
    var v := ChainStep(cfg, w, e).value;
    assert Valid(v.chain, cfg.lag) by {
      forall i | 0 <= i < |v.chain.log|
        ensures ValidEntry(v.chain.log[i], i, v.chain.clock)
      {
        if i < |w.chain.log| {
          assert ValidEntry(w.chain.log[i], i, w.chain.clock);
        }
      }
    }
    assert Grows(cfg, w, v);
    FrameHistory(cfg, w, v);
    FrameTasks(cfg, w, v);
    assert LogOnNetwork(v.chain.log, v.network);
  }

  lemma NetworkKeepsInv(cfg: Config, w: World, b: Broadcast)
    requires Inv(cfg, w)
    requires b.source.Some? ==> b.source.value in w.handed && w.handed[b.source.value] == b.message
                                && b.source.value !in w.rejected
    ensures Inv(cfg, w.(network := w.network + {b}))
  {
    var v := w.(network := w.network + {b});
    FrameHistory(cfg, w, v);
    FrameTasks(cfg, w, v);
    forall i | 0 <= i < |v.chain.log|
      ensures OnNetwork(v.network, v.chain.log[i].message)
    {
      var c :| c in w.network && c.message == w.chain.log[i].message;
      assert c in v.network;
    }
  }

  lemma SpawnKeepsInv(cfg: Config, w: World, call: Call)
    requires Inv(cfg, w)
    ensures Inv(cfg, Put(w, w.spawned, Loading(CallerOf(cfg, call))).(spawned := w.spawned + 1))
  {
    var id := w.spawned;
    var v := Put(w, id, Loading(CallerOf(cfg, call))).(spawned := id + 1);
    FrameHistory(cfg, w, v);
    FrameHanded(w.handed, w.history, v.history, w.spawned, v.spawned);
    assert Unwritten(v, id) by {
      forall i | 0 <= i < |w.history|
        ensures w.history[i].attempt != id
      {
        assert RecordOk(cfg, w, i);
      }
    }
    forall j | j in v.tasks
      ensures j < v.spawned && TaskOk(cfg, v, j, v.tasks[j])
    {
      if j != id {
        FrameTask(cfg, w, v, j, w.tasks[j]);
      }
    }
  }

  // ----- quiet steps of a call -----

  /** A call moves on without changing anything durable. */
  lemma QuietKeepsInv(cfg: Config, w: World, id: nat, task: Task)
    requires Inv(cfg, w) && id in w.tasks && TaskOk(cfg, w, id, task)
    ensures Inv(cfg, Put(w, id, task))
  {
    var v := Put(w, id, task);
    assert Grows(cfg, w, v);
    assert HistoryOk(cfg, v) by {
      FrameHistory(cfg, w, v);
    }
    assert TasksOk(cfg, v) by {
      FrameTask(cfg, w, v, id, task);
      PutTask(cfg, w, v, id, task);
    }
  }

  lemma SlotAt(cfg: Config, w: World)
    requires HistoryOk(cfg, w) && w.history != []
    ensures At(w.history, Slot(w.history).value)
    ensures Slot(w.history).value.payload.Encoded?
    ensures Decode(Slot(w.history).value) == Success(Body(w.history[|w.history| - 1]))
  {
    assert RecordOk(cfg, w, |w.history| - 1);
  }

  lemma AtDecodes(cfg: Config, w: World, record: JournalRecord)
    requires HistoryOk(cfg, w) && At(w.history, record)
    ensures record.payload.Encoded? && Decode(record) == Success(record.payload.record)
    ensures record.payload.record.owner == cfg.owner && Storable(record.payload.record.stage)
  {
    assert RecordOk(cfg, w, record.version - 1);
  }

  lemma AcceptJournalOk(cfg: Config, w: World, id: nat, wf: Workflow, record: Option<JournalRecord>)
    requires HistoryOk(cfg, w) && Unwritten(w, id)
    requires wf.owner == cfg.owner && wf.stage == LoadingJournal
    requires record.Some? ==> At(w.history, record.value)
    ensures TaskOk(cfg, w, id, AcceptJournal(wf, record))
  {
    if record.Some? {
      AtDecodes(cfg, w, record.value);
    }
  }

  lemma AfterLoadOk(cfg: Config, w: World, id: nat, caller: Caller)
    requires HistoryOk(cfg, w) && Unwritten(w, id) && CallerOk(cfg, caller)
    ensures TaskOk(cfg, w, id, AfterLoad(caller, Slot(w.history), cfg.owner))
  {
    if w.history != [] {
      SlotAt(cfg, w);
    }
  }

  lemma AfterTimeOk(cfg: Config, w: World, id: nat, caller: Caller, record: Option<JournalRecord>,
                    found: Option<Pending>, time: u64)
    requires HistoryOk(cfg, w) && TaskOk(cfg, w, id, ReadingTime(caller, record, found))
    requires time <= w.chain.clock && AfterTime(caller, record, found, time).Some?
    ensures TaskOk(cfg, w, id, AfterTime(caller, record, found, time).value)
  {
    if !(found.Some? && !Overrides(caller, found.value)) && caller.ForSend? {
      AcceptJournalOk(cfg, w, id, caller.workflow, record);
    }
  }

  lemma AfterVerdictOk(cfg: Config, w: World, id: nat, caller: Caller, pending: Pending, time: u64, read: Read,
                       mempool: MempoolAnswer)
    requires Valid(w.chain, cfg.lag) && HistoryOk(cfg, w)
    requires TaskOk(cfg, w, id, Resolving(caller, pending, time, read))
    ensures TaskOk(cfg, w, id, AfterVerdict(caller, pending, time,
                                            ReadVerdict(w.chain, pending, time, cfg.margin, read, mempool)))
  {
    ReadVerdictSound(w.chain, pending, time, cfg.margin, read, mempool, cfg.lag);
    AtDecodes(cfg, w, pending.journal);
  }

  lemma SignedTaskOk(cfg: Config, w: World, id: nat, wf: Workflow, account: FreshAccount, prepared: Prepared)
    requires TaskOk(cfg, w, id, Unlocked(wf))
    ensures TaskOk(cfg, w, id, SignedTask(wf, account, prepared))
  {
  }

  // ----- steps that write, release, or hear from the provider -----

  /** The stored record and its result after a compare and swap that applied. */
  lemma StoreApplies(cfg: Config, w: World, mutation: Mutation, attempt: nat, forced: bool)
    requires HistoryOk(cfg, w) && Store(w.history, mutation, attempt, forced).1.applied
    ensures SlotVersion(Slot(w.history)) == mutation.expected
    ensures mutation.expected.None? ==> w.history == []
    ensures mutation.expected.Some? ==> w.history != [] && mutation.expected.value as int == |w.history|
    ensures Store(w.history, mutation, attempt, forced).0 == w.history + [Write(mutation.replacement, attempt, forced)]
  {
    if w.history != [] {
      assert RecordOk(cfg, w, |w.history| - 1);
    }
  }

  lemma HandOutOk(w: World, history: seq<Write>, id: nat, m: Message)
    requires HandedOk(w.handed, history, w.spawned) && NetworkOk(w.handed, w.rejected, w.network)
    requires id !in w.handed && id < w.spawned && Recorded(history, id, m)
    ensures HandedOk(w.handed[id := m], history, w.spawned)
    ensures NetworkOk(w.handed[id := m], w.rejected, w.network)
  {
  }

  lemma AppendUntouched(w: World, v: World, b: Write, j: nat)
    requires v.history == w.history + [b] && (j in v.handed ==> j in w.handed)
    requires b.attempt != j || Attempted(w.history, j)
    ensures Untouched(w, v, j)
  {
    if Attempted(v.history, j) {
      var i :| 0 <= i < |v.history| && v.history[i].attempt == j;
      if i < |w.history| {
        assert w.history[i].attempt == j;
      }
    }
  }

  lemma WriteKeepsTasks(cfg: Config, w: World, v: World, id: nat, task: Task, b: Write)
    requires TasksOk(cfg, w) && id in w.tasks && Grows(cfg, w, v) && w.spawned == v.spawned
    requires v.history == w.history + [b] && v.tasks == w.tasks[id := task]
    requires forall j :: j in v.handed && j != id ==> j in w.handed
    requires b.attempt == id || Attempted(w.history, b.attempt)
    requires TaskOk(cfg, v, id, task)
    ensures TasksOk(cfg, v)
  {
    forall j | j in v.tasks
      ensures j < v.spawned && TaskOk(cfg, v, j, v.tasks[j])
    {
      if j != id {
        AppendUntouched(w, v, b, j);
        FrameTask(cfg, w, v, j, w.tasks[j]);
      }
    }
  }

  lemma WriteKeepsHandOff(w: World, v: World, id: nat, b: Write)
    requires HandOffOk(w) && id < w.spawned && b.record.payload.Encoded?
    requires v.history == w.history + [b] && v.spawned == w.spawned && v.chain == w.chain
    requires v.rejected == w.rejected && v.network == w.network
    requires v.handed == w.handed || (v.handed == w.handed[id := Body(b).message] && b.attempt == id && id !in w.handed)
    ensures HandOffOk(v)
  {
    FrameHanded(w.handed, w.history, v.history, w.spawned, v.spawned);
    if v.handed != w.handed {
      assert v.history[|w.history|] == b;
      HandOutOk(w, v.history, id, Body(b).message);
    }
  }

  /** A write that adds to the history keeps the invariant when the record may
      be stored and the writer's next task is in order. */
  lemma WriteKeepsInv(cfg: Config, w: World, v: World, id: nat, task: Task, b: Write)
    requires Inv(cfg, w) && id in w.tasks && Appendable(cfg, w, b)
    requires v == Put(w, id, task).(history := w.history + [b], handed := v.handed)
    requires v.handed == w.handed || (v.handed == w.handed[id := Body(b).message] && b.attempt == id && id !in w.handed)
    requires b.attempt == id || Attempted(w.history, b.attempt)
    requires TaskOk(cfg, v, id, task)
    ensures Inv(cfg, v)
  {
    assert Grows(cfg, w, v);
    assert HistoryOk(cfg, v) by {
      AppendWrite(cfg, w, v, b);
    }
    assert HandOffOk(v) by {
      WriteKeepsHandOff(w, v, id, b);
    }
    assert TasksOk(cfg, v) by {
      WriteKeepsTasks(cfg, w, v, id, task, b);
    }
  }

  lemma ResolvedReads(owner: Owner, d: DurableRecord, version: u64, r: Resolution)
    requires d.owner == owner && d.schemaVersion == SCHEMA_VERSION && version > 0 && !r.StillPending?
    requires r.Confirmed? ==> r.transaction.lt <= U64_MAX
    ensures var record := JournalRecord(version, Encoded(Resolved(d, r)));
            && Decode(record) == Success(Resolved(d, r))
            && TerminalSendResolution(record, owner) == Success(Some(r))
            && Evidence(Resolved(d, r).stage)
            && SameMessage(d, Resolved(d, r))
  {
  }

  /** Terminal evidence over the inspected record may be stored. */
  lemma ResolutionAppendable(cfg: Config, w: World, p: Pending, r: Resolution)
    requires HistoryOk(cfg, w) && PendingOk(cfg, w.history, p) && !r.StillPending?
    requires Holds(w.chain, p.durable.message, r, cfg.margin, cfg.lag)
    requires p.version as int == |w.history| && p.version < U64_MAX
    ensures var b := Write(JournalRecord(p.version + 1, Encoded(Resolved(p.durable, r))), SlotAttempt(w.history), false);
            && Appendable(cfg, w, b)
            && TerminalSendResolution(b.record, cfg.owner) == Success(Some(r))
  {
    var last := |w.history| - 1;
    var b := Write(JournalRecord(p.version + 1, Encoded(Resolved(p.durable, r))), SlotAttempt(w.history), false);
    assert RecordOk(cfg, w, last);
    assert Body(w.history[last]) == p.durable && !p.durable.stage.PermitsReplacement();
    ResolvedReads(cfg.owner, p.durable, p.version + 1, r);
    assert Follows(w.history[last], b);
    assert LinkOk(w.history + [b], last + 1);
    assert Truthful(cfg, w.chain, w.rejected, b);
  }

  lemma PersistAppliedKeepsInv(cfg: Config, w: World, id: nat, caller: Caller, p: Pending, r: Resolution, tries: nat,
                               lost: bool)
    requires Inv(cfg, w) && id in w.tasks && w.tasks[id] == Persisting(caller, p, r, tries)
    requires p.version as int == |w.history| && p.version < U64_MAX
    ensures var replacement := JournalRecord(p.version + 1, Encoded(Resolved(p.durable, r)));
            var next := if lost then Ended(DefiniteFailure)
                        else AfterPersist(caller, p, r, tries, PersistStep.Done(r, replacement));
            Inv(cfg, Put(w, id, next).(history := w.history + [Write(replacement, SlotAttempt(w.history), false)]))
  {
    ResolutionAppendable(cfg, w, p, r);
    var replacement := JournalRecord(p.version + 1, Encoded(Resolved(p.durable, r)));
    var b := Write(replacement, SlotAttempt(w.history), false);
    var next := if lost then Ended(DefiniteFailure)
                else AfterPersist(caller, p, r, tries, PersistStep.Done(r, replacement));
    var v := Put(w, id, next).(history := w.history + [b]);
    assert w.history[|w.history| - 1].attempt == b.attempt;
    AppendWrite(cfg, w, v, b);
    assert Unwritten(v, id);
    assert At(v.history, replacement);
    if !lost && caller.ForSend? {
      AcceptJournalOk(cfg, v, id, caller.workflow, Some(replacement));
    }
    assert TaskOk(cfg, v, id, next);
    WriteKeepsInv(cfg, w, v, id, next, b);
  }

  lemma PersistConflictOk(cfg: Config, w: World, id: nat, caller: Caller, p: Pending, r: Resolution, tries: nat,
                          replacement: JournalRecord)
    requires HistoryOk(cfg, w) && TaskOk(cfg, w, id, Persisting(caller, p, r, tries)) && w.history != []
    ensures TaskOk(cfg, w, id, AfterPersist(caller, p, r, tries,
                                            AfterCas(p, r, replacement, CasResult(false, Slot(w.history)))))
  {
    SlotAt(cfg, w);
    if caller.ForSend? {
      AcceptJournalOk(cfg, w, id, caller.workflow, Slot(w.history));
    }
  }

  lemma PersistKeepsInv(cfg: Config, w: World, id: nat, fault: Fault)
    requires Inv(cfg, w) && id in w.tasks && w.tasks[id].Persisting?
    ensures Inv(cfg, SwapStep(w, id, w.tasks[id], fault).value)
  {
    var Persisting(caller, p, r, tries) := w.tasks[id];
    assert TaskOk(cfg, w, id, w.tasks[id]);
    var mutation := TerminalMutation(p, r);
    if mutation.Failure? || fault == FailsBefore {
      QuietKeepsInv(cfg, w, id, Ended(DefiniteFailure));
    } else {
      var (history, result) := Store(w.history, mutation.value.value, SlotAttempt(w.history), false);
      if result.applied {
        StoreApplies(cfg, w, mutation.value.value, SlotAttempt(w.history), false);
        PersistAppliedKeepsInv(cfg, w, id, caller, p, r, tries, fault == FailsAfter);
      } else {
        PersistConflictOk(cfg, w, id, caller, p, r, tries, mutation.value.value.replacement);
        QuietKeepsInv(cfg, w, id, SwapStep(w, id, w.tasks[id], fault).value.tasks[id]);
      }
    }
  }

  /** A prepared message may be stored over the record it was signed after. */
  lemma CommitAppendable(cfg: Config, w: World, id: nat, wf: Workflow, mutation: Mutation)
    requires HistoryOk(cfg, w) && TaskOk(cfg, w, id, Committing(wf, mutation)) && id < w.spawned
    requires Store(w.history, mutation, id, OverwritesUnsettled(w.history)).1.applied
    ensures Appendable(cfg, w, Write(mutation.replacement, id, OverwritesUnsettled(w.history)))
    ensures mutation.replacement.version as int == |w.history| + 1
    ensures mutation.replacement.payload == Encoded(RecordOf(wf))
  {
    var forced := OverwritesUnsettled(w.history);
    StoreApplies(cfg, w, mutation, id, forced);
    var b := Write(mutation.replacement, id, forced);
    assert Decode(mutation.replacement) == Success(RecordOf(wf));
    if w.history != [] {
      var last := |w.history| - 1;
      assert RecordOk(cfg, w, last);
      assert LinkOk(w.history + [b], |w.history|);
    }
  }

  lemma CommitNext(wf: Workflow, version: u64, result: CasResult)
    requires wf.stage == PersistingPrepared && wf.prepared.Some? && result.applied
    requires NextVersion(wf.journalVersion) == Success(version)
    ensures AfterCommit(wf, result) ==
            if wf.kind == External then Releasing(wf.(stage := Submitting, journalVersion := Some(version)))
            else Ended(Delivered(HandedOff, version))
  {
  }

  lemma CommitNextOk(cfg: Config, w: World, v: World, id: nat, wf: Workflow, mutation: Mutation)
    requires TaskOk(cfg, w, id, Committing(wf, mutation))
    requires mutation.replacement.version as int == |w.history| + 1
    requires mutation.replacement.payload == Encoded(RecordOf(wf))
    requires v.history == w.history + [Write(mutation.replacement, id, OverwritesUnsettled(w.history))]
    requires v.handed == if wf.kind == External then w.handed else w.handed[id := wf.prepared.value.message]
    ensures var next := AfterCommit(wf, CasResult(true, Some(mutation.replacement)));
            && TaskOk(cfg, v, id, next)
            && (next.Ended? && next.outcome.Delivered? <==> wf.kind == Internal)
  {
    var version := mutation.replacement.version;
    CommitNext(wf, version, CasResult(true, Some(mutation.replacement)));
    assert v.history[version - 1].record == mutation.replacement;
    if wf.kind == External {
      assert OwnRecord(cfg, v.history, id, wf.(stage := Submitting, journalVersion := Some(version)));
    }
  }

  /** The world right after an applied commit whose answer arrived or got lost. */
  function Committed(w: World, id: nat, wf: Workflow, mutation: Mutation, lost: bool): World
    requires wf.prepared.Some?
  {
    var stored := w.(history := w.history + [Write(mutation.replacement, id, OverwritesUnsettled(w.history))]);
    if lost then Put(stored, id, Ended(OutcomeUnknown))
    else
      Put(stored, id, AfterCommit(wf, CasResult(true, Some(mutation.replacement)))).(
        handed := if wf.kind == External then w.handed else w.handed[id := wf.prepared.value.message])
  }

  lemma CommittedKeepsInv(cfg: Config, w: World, id: nat, wf: Workflow, mutation: Mutation, lost: bool)
    requires Inv(cfg, w) && id in w.tasks && w.tasks[id] == Committing(wf, mutation)
    requires Store(w.history, mutation, id, OverwritesUnsettled(w.history)).1.applied
    ensures wf.prepared.Some? && Inv(cfg, Committed(w, id, wf, mutation, lost))
  {
    assert TaskOk(cfg, w, id, w.tasks[id]);
    CommitAppendable(cfg, w, id, wf, mutation);
    var v := Committed(w, id, wf, mutation, lost);
    if !lost {
      CommitNextOk(cfg, w, v, id, wf, mutation);
    }
    WriteKeepsInv(cfg, w, v, id, v.tasks[id], Write(mutation.replacement, id, OverwritesUnsettled(w.history)));
  }

  lemma CommitKeepsInv(cfg: Config, w: World, id: nat, fault: Fault)
    requires Inv(cfg, w) && id in w.tasks && w.tasks[id].Committing?
    ensures Inv(cfg, SwapStep(w, id, w.tasks[id], fault).value)
  {
    var Committing(wf, mutation) := w.tasks[id];
    assert TaskOk(cfg, w, id, w.tasks[id]);
    if fault == FailsBefore {
      QuietKeepsInv(cfg, w, id, Ended(OutcomeUnknown));
    } else {
      var forced := OverwritesUnsettled(w.history);
      var (history, result) := Store(w.history, mutation, id, forced);
      if result.applied {
        CommittedKeepsInv(cfg, w, id, wf, mutation, fault == FailsAfter);
        CommitSwap(cfg, w, id, wf, mutation, fault);
      } else {
        QuietKeepsInv(cfg, w, id, if fault == FailsAfter then Ended(OutcomeUnknown) else AfterCommit(wf, result));
      }
    }
  }

  lemma CommitSwap(cfg: Config, w: World, id: nat, wf: Workflow, mutation: Mutation, fault: Fault)
    requires HistoryOk(cfg, w) && TaskOk(cfg, w, id, Committing(wf, mutation)) && id < w.spawned
    requires Store(w.history, mutation, id, OverwritesUnsettled(w.history)).1.applied && fault != FailsBefore
    ensures SwapStep(w, id, Committing(wf, mutation), fault) == Some(Committed(w, id, wf, mutation, fault == FailsAfter))
  {
    CommitAppendable(cfg, w, id, wf, mutation);
    var v := Committed(w, id, wf, mutation, false);
    CommitNextOk(cfg, w, v, id, wf, mutation);
  }

  /** The provider's answer may be stored over the call's own record only. */
  lemma CloseAppendable(cfg: Config, w: World, id: nat, wf: Workflow, mutation: Mutation)
    requires HistoryOk(cfg, w) && TaskOk(cfg, w, id, Closing(wf, mutation)) && id < w.spawned
    requires Store(w.history, mutation, id, false).1.applied
    ensures Appendable(cfg, w, Write(mutation.replacement, id, false))
    ensures mutation.replacement.version as int == |w.history| + 1
    ensures mutation.replacement.payload == Encoded(RecordOf(wf))
    ensures SlotAttempt(w.history) == id
  {
    StoreApplies(cfg, w, mutation, id, false);
    var b := Write(mutation.replacement, id, false);
    assert Decode(mutation.replacement) == Success(RecordOf(wf));
    assert RecordOk(cfg, w, |w.history| - 1);
    assert LinkOk(w.history + [b], |w.history|);
  }

  /** The world right after an applied final write. */
  function Closed(w: World, id: nat, wf: Workflow, mutation: Mutation, lost: bool): World {
    Put(w, id, if lost then Ended(OutcomeUnknown) else AfterClose(wf, CasResult(true, Some(mutation.replacement)))).(
      history := w.history + [Write(mutation.replacement, id, false)])
  }

  lemma CloseNextOk(cfg: Config, w: World, v: World, id: nat, wf: Workflow, mutation: Mutation)
    requires TaskOk(cfg, w, id, Closing(wf, mutation))
    requires mutation.replacement.version as int == |w.history| + 1
    requires mutation.replacement.payload == Encoded(RecordOf(wf))
    requires v.history == w.history + [Write(mutation.replacement, id, false)]
    requires v.handed == w.handed
    ensures TaskOk(cfg, v, id, AfterClose(wf, CasResult(true, Some(mutation.replacement))))
  {
    assert NextVersion(wf.journalVersion) == Success(mutation.replacement.version);
    assert v.history[mutation.replacement.version - 1].record == mutation.replacement;
  }

  lemma ClosedKeepsInv(cfg: Config, w: World, id: nat, wf: Workflow, mutation: Mutation, lost: bool)
    requires Inv(cfg, w) && id in w.tasks && w.tasks[id] == Closing(wf, mutation)
    requires Store(w.history, mutation, id, false).1.applied
    ensures Inv(cfg, Closed(w, id, wf, mutation, lost))
  {
    assert TaskOk(cfg, w, id, w.tasks[id]);
    CloseAppendable(cfg, w, id, wf, mutation);
    var v := Closed(w, id, wf, mutation, lost);
    if !lost {
      CloseNextOk(cfg, w, v, id, wf, mutation);
    }
    WriteKeepsInv(cfg, w, v, id, v.tasks[id], Write(mutation.replacement, id, false));
  }

  lemma CloseKeepsInv(cfg: Config, w: World, id: nat, fault: Fault)
    requires Inv(cfg, w) && id in w.tasks && w.tasks[id].Closing?
    ensures Inv(cfg, SwapStep(w, id, w.tasks[id], fault).value)
  {
    var Closing(wf, mutation) := w.tasks[id];
    if fault == FailsBefore {
      QuietKeepsInv(cfg, w, id, Ended(OutcomeUnknown));
    } else if Store(w.history, mutation, id, false).1.applied {
      ClosedKeepsInv(cfg, w, id, wf, mutation, fault == FailsAfter);
    } else {
      CloseConflict(wf, Slot(w.history));
      QuietKeepsInv(cfg, w, id, Ended(OutcomeUnknown));
    }
  }

  lemma CloseConflict(wf: Workflow, slot: Option<JournalRecord>)
    ensures AfterClose(wf, CasResult(false, slot)) == Ended(OutcomeUnknown)
  {
    ConflictReleasesNothing(wf, CasResult(false, slot));
  }

  lemma ReleasingFacts(cfg: Config, w: World, id: nat, wf: Workflow)
    requires TaskOk(cfg, w, id, Releasing(wf))
    ensures wf.prepared.Some? && id !in w.handed
    ensures Recorded(w.history, id, wf.prepared.value.message)
  {
    var i := wf.journalVersion.value - 1;
    assert w.history[i].attempt == id && Body(w.history[i]).message == wf.prepared.value.message;
  }

  lemma ReleaseKeepsTasks(cfg: Config, w: World, v: World, id: nat, wf: Workflow)
    requires TasksOk(cfg, w) && id in w.tasks && w.tasks[id] == Releasing(wf) && wf.prepared.Some?
    requires Grows(cfg, w, v) && v.history == w.history && v.spawned == w.spawned
    requires v.tasks == w.tasks[id := InFlight(wf)] && v.handed == w.handed[id := wf.prepared.value.message]
    ensures TasksOk(cfg, v)
  {
    assert TaskOk(cfg, w, id, Releasing(wf));
    forall j | j in v.tasks
      ensures j < v.spawned && TaskOk(cfg, v, j, v.tasks[j])
    {
      if j != id {
        FrameTask(cfg, w, v, j, w.tasks[j]);
      }
    }
  }

  lemma ReleaseKeepsInv(cfg: Config, w: World, id: nat, wf: Workflow)
    requires Inv(cfg, w) && id in w.tasks && w.tasks[id] == Releasing(wf)
    ensures wf.prepared.Some?
    ensures Inv(cfg, Put(w, id, InFlight(wf)).(handed := w.handed[id := wf.prepared.value.message]))
  {
    ReleasingFacts(cfg, w, id, wf);
    var m := wf.prepared.value.message;
    var v := Put(w, id, InFlight(wf)).(handed := w.handed[id := m]);
    assert Grows(cfg, w, v);
    assert HandOffOk(v) by {
      HandOutOk(w, w.history, id, m);
    }
    assert HistoryOk(cfg, v) by {
      FrameHistory(cfg, w, v);
    }
    assert TasksOk(cfg, v) by {
      ReleaseKeepsTasks(cfg, w, v, id, wf);
    }
  }

  lemma ReplyNextOk(cfg: Config, v: World, id: nat, wf: Workflow, reply: Reply)
    requires TaskOk(cfg, v, id, InFlight(wf))
    requires reply.Rejected? ==> id in v.rejected
    ensures TaskOk(cfg, v, id, AfterReply(wf, reply))
  {
    var reduced := Replied(wf, reply);
    assert SameMessage(RecordOf(reduced.workflow), RecordOf(wf));
  }

  /** An explicit rejection: the provider has not forwarded this call's message
      and from now on never will. */
  lemma RejectKeepsGlobals(cfg: Config, w: World, v: World, id: nat)
    requires Inv(cfg, w) && id in w.handed && Broadcast(w.handed[id], Some(id)) !in w.network
    requires v == w.(rejected := w.rejected + {id}, tasks := v.tasks)
    ensures Grows(cfg, w, v) && HistoryOk(cfg, v) && HandOffOk(v)
  {
    FrameHistory(cfg, w, v);
  }

  lemma AnswerKeepsInv(cfg: Config, w: World, id: nat, wf: Workflow, response: SendResponse)
    requires Inv(cfg, w) && id in w.tasks && w.tasks[id] == InFlight(wf)
    requires ReplyStep(w, id, wf, response).Some?
    ensures Inv(cfg, ReplyStep(w, id, wf, response).value)
  {
    assert TaskOk(cfg, w, id, InFlight(wf));
    var reply := ClassifyResponse(response);
    if reply.Rejected? {
      var v := ReplyStep(w, id, wf, response).value;
      RejectKeepsGlobals(cfg, w, v, id);
      FrameTask(cfg, w, v, id, InFlight(wf));
      ReplyNextOk(cfg, v, id, wf, reply);
      PutTask(cfg, w, v, id, AfterReply(wf, reply));
    } else {
      ReplyNextOk(cfg, w, id, wf, reply);
      QuietKeepsInv(cfg, w, id, AfterReply(wf, reply));
    }
  }

  // ----- every step, every run -----

  /** The steps before the durable commit. */
  lemma EarlyStepKeepsInv(cfg: Config, w: World, id: nat, e: WorldEvent)
    requires Inv(cfg, w) && id in w.tasks && TaskStep(cfg, w, id, w.tasks[id], e).Some?
    requires e.Load? || e.ReadTime? || e.ReadIndex? || e.Sign? || e.Abort?
    ensures Inv(cfg, TaskStep(cfg, w, id, w.tasks[id], e).value)
  {
    var task := w.tasks[id];
    assert TaskOk(cfg, w, id, task);
    match (e, task) {
      case (Load(_), Loading(caller)) =>
        AfterLoadOk(cfg, w, id, caller);
        QuietKeepsInv(cfg, w, id, AfterLoad(caller, Slot(w.history), cfg.owner));
      case (ReadTime(_, time), ReadingTime(caller, record, found)) =>
        AfterTimeOk(cfg, w, id, caller, record, found, time);
        QuietKeepsInv(cfg, w, id, AfterTime(caller, record, found, time).value);
      case (ReadIndex(_, mempool), Resolving(caller, p, time, read)) =>
        AfterVerdictOk(cfg, w, id, caller, p, time, read, mempool);
        QuietKeepsInv(cfg, w, id, AfterVerdict(caller, p, time,
                                               ReadVerdict(w.chain, p, time, cfg.margin, read, mempool)));
      case (Sign(_, account, prepared), Unlocked(wf)) =>
        SignedTaskOk(cfg, w, id, wf, account, prepared);
        QuietKeepsInv(cfg, w, id, SignedTask(wf, account, prepared));
      case (Abort(_), _) =>
        QuietKeepsInv(cfg, w, id, Ended(DefiniteFailure));
    }
  }

  lemma SwapKeepsInv(cfg: Config, w: World, id: nat, fault: Fault)
    requires Inv(cfg, w) && id in w.tasks && SwapStep(w, id, w.tasks[id], fault).Some?
    ensures Inv(cfg, SwapStep(w, id, w.tasks[id], fault).value)
  {
    if w.tasks[id].Persisting? {
      PersistKeepsInv(cfg, w, id, fault);
    } else if w.tasks[id].Committing? {
      CommitKeepsInv(cfg, w, id, fault);
    } else {
      CloseKeepsInv(cfg, w, id, fault);
    }
  }

  lemma TaskStepKeepsInv(cfg: Config, w: World, id: nat, e: WorldEvent)
    requires Inv(cfg, w) && id in w.tasks && TaskStep(cfg, w, id, w.tasks[id], e).Some?
    ensures Inv(cfg, TaskStep(cfg, w, id, w.tasks[id], e).value)
  {
    if e.Swap? {
      SwapKeepsInv(cfg, w, id, e.fault);
    } else if e.Release? {
      ReleaseKeepsInv(cfg, w, id, w.tasks[id].workflow);
    } else if e.Answer? {
      AnswerKeepsInv(cfg, w, id, w.tasks[id].workflow, e.response);
    } else {
      EarlyStepKeepsInv(cfg, w, id, e);
    }
  }

  lemma StepKeepsInv(cfg: Config, w: World, e: WorldEvent)
    requires Inv(cfg, w) && Step(cfg, w, e).Some?
    ensures Inv(cfg, Step(cfg, w, e).value)
  {
    match e {
      case Clock(_) => ChainKeepsInv(cfg, w, e);
      case Index(_) => ChainKeepsInv(cfg, w, e);
      case Execute(_, _) => ChainKeepsInv(cfg, w, e);
      case Outside(m) => NetworkKeepsInv(cfg, w, Broadcast(m, None));
      case Take(a) => NetworkKeepsInv(cfg, w, Broadcast(w.handed[a], Some(a)));
      case Spawn(call) => SpawnKeepsInv(cfg, w, call);
      case Crash(id) =>
        var v := w.(tasks := w.tasks - {id});
        FrameHistory(cfg, w, v);
        FrameHanded(w.handed, w.history, v.history, w.spawned, v.spawned);
        forall j | j in v.tasks
          ensures j < v.spawned && TaskOk(cfg, v, j, v.tasks[j])
        {
          FrameTask(cfg, w, v, j, w.tasks[j]);
        }
      case _ => TaskStepKeepsInv(cfg, w, e.task, e);
    }
  }
}
