/** A behaviour the protocol does not rule out: a recovery call can report the
    fate of another operation under the operation it set out to resolve. */
module ProtocolFindings {
  import opened Basics
  import opened Journal
  import opened SendReducer
  import opened ResolutionRules
  import opened ChainModel
  import opened Protocol
  import opened ProtocolSafety
  import opened ProtocolTheorems

  const CFG: Config := Config(Owner("wallet", "0:1"), 60, 60)
  const PAID: Message := Message(1, External, 0, 1000)
  const UNPAID: Message := Message(2, External, 1, 1000)

  function SendCall(operation: string): Call {
    Send(Request(operation, false, [], None), External, true)
  }

  function Signed(operation: string, m: Message): Prepared {
    Prepared(operation, CFG.owner, m, [], false)
  }

  function Durable(operation: string, m: Message, stage: Stage): DurableRecord {
    DurableRecord(SCHEMA_VERSION, operation, CFG.owner, m, [], false, stage, None, None, None)
  }

  function Stored(version: u64, durable: DurableRecord): JournalRecord {
    JournalRecord(version, Encoded(durable))
  }

  lemma RunStep(w: World, e: WorldEvent, v: World, events: seq<WorldEvent>)
    requires Step(CFG, w, e) == Some(v)
    ensures Run(CFG, w, [e] + events) == Run(CFG, v, events)
  {
    assert ([e] + events)[1..] == events;
  }

  lemma {:induction false} RunConcat(w: World, first: seq<WorldEvent>, second: seq<WorldEvent>)
    requires Run(CFG, w, first).Some?
    ensures Run(CFG, w, first + second) == Run(CFG, Run(CFG, w, first).value, second)
    decreases |first|
  {
    if first == [] {
      assert first + second == second;
    } else {
      assert (first + second)[1..] == first[1..] + second;
      RunConcat(Step(CFG, w, first[0]).value, first[1..], second);
    }
  }

  function OpenEvents(id: nat, operation: string): seq<WorldEvent> {
    [Spawn(SendCall(operation)), Load(id), ReadTime(id, 0)]
  }

  function CommitEvents(id: nat, operation: string, m: Message): seq<WorldEvent> {
    [Sign(id, FreshAccount(Active, m.seqno), Signed(operation, m)), Swap(id, Works)]
  }

  function Fresh(operation: string): Workflow {
    Workflow(CFG.owner, Request(operation, false, [], None), External, true, LoadingJournal, None, None, None, None)
  }

  function Accepted(operation: string, slot: Option<JournalRecord>): Workflow {
    Fresh(operation).(stage := FetchingFreshAccount, journalVersion := SlotVersion(slot))
  }

  /** The slot is empty or holds a settled record of this wallet. */
  predicate Free(history: seq<Write>) {
    history != [] ==>
      var last := history[|history| - 1].record;
      && last.version as int == |history| && Decode(last).Success?
      && Decode(last).value.owner == CFG.owner && Decode(last).value.stage.PermitsReplacement()
  }

  lemma FreeSlotIsAccepted(operation: string, history: seq<Write>)
    requires Free(history)
    ensures AfterLoad(ForSend(Fresh(operation)), Slot(history), CFG.owner)
            == ReadingTime(ForSend(Fresh(operation)), Slot(history), None)
    ensures AfterTime(ForSend(Fresh(operation)), Slot(history), None, 0)
            == Some(Unlocked(Accepted(operation, Slot(history))))
  {
  }

  lemma SignedIsCommitting(operation: string, m: Message, history: seq<Write>, version: u64)
    requires m.kind == External && Free(history) && version as int == |history| + 1
    ensures SignedTask(Accepted(operation, Slot(history)), FreshAccount(Active, m.seqno), Signed(operation, m)) ==
            Committing(Accepted(operation, Slot(history)).(
                         stage := PersistingPrepared, account := Some(FreshAccount(Active, m.seqno)),
                         prepared := Some(Signed(operation, m))),
                       Mutation(SlotVersion(Slot(history)), Stored(version, Durable(operation, m, ReadyToSubmit))))
  {
  }

  /** `v` is `w` after one more call has run, whose only durable effect is
      `writes`. */
  predicate AfterCall(w: World, v: World, writes: seq<Write>) {
    && v == w.(tasks := v.tasks, spawned := w.spawned + 1, history := w.history + writes)
    && w.spawned in v.tasks
    && forall j :: j in w.tasks && j < w.spawned ==> j in v.tasks && v.tasks[j] == w.tasks[j]
  }

  lemma SpawnSend(w: World, operation: string) returns (v: World)
    ensures Step(CFG, w, Spawn(SendCall(operation))) == Some(v)
    ensures v == Put(w, w.spawned, Loading(ForSend(Fresh(operation)))).(spawned := w.spawned + 1)
  {
    v := Put(w, w.spawned, Loading(ForSend(Fresh(operation)))).(spawned := w.spawned + 1);
  }

  lemma OpenRun(w: World, operation: string) returns (v: World)
    requires Free(w.history)
    ensures Run(CFG, w, OpenEvents(w.spawned, operation)) == Some(v)
    ensures AfterCall(w, v, [])
    ensures v.tasks[w.spawned] == Unlocked(Accepted(operation, Slot(w.history)))
  {
    var id := w.spawned;
    var caller := ForSend(Fresh(operation));
    var slot := Slot(w.history);
    var w1 := SpawnSend(w, operation);
    var w2 := Put(w1, id, ReadingTime(caller, slot, None));
    v := Put(w2, id, Unlocked(Accepted(operation, slot)));
    assert Step(CFG, w1, Load(id)) == Some(w2) && Step(CFG, w2, ReadTime(id, 0)) == Some(v) by {
      FreeSlotIsAccepted(operation, w.history);
      MoveLoad(w1, id, caller);
      MoveTime(w2, id, caller, slot, None, 0);
    }
    RunThree(w, OpenEvents(id, operation), w1, w2, v);
  }

  lemma CommitRun(w: World, id: nat, operation: string, m: Message, version: u64) returns (v: World)
    requires m.kind == External && version as int == |w.history| + 1 && Free(w.history)
    requires id in w.tasks && w.tasks[id] == Unlocked(Accepted(operation, Slot(w.history)))
    ensures Run(CFG, w, CommitEvents(id, operation, m)) == Some(v)
    ensures v == w.(tasks := v.tasks, history := w.history +
                    [Write(Stored(version, Durable(operation, m, ReadyToSubmit)), id, false)])
    ensures id in v.tasks && v.tasks == w.tasks[id := v.tasks[id]]
    ensures v.tasks[id].Releasing? && v.tasks[id].workflow.prepared == Some(Signed(operation, m))
  {
    var wf := Accepted(operation, Slot(w.history));
    var account := FreshAccount(Active, m.seqno);
    var w1 := Put(w, id, SignedTask(wf, account, Signed(operation, m)));
    var done := wf.(stage := Submitting, account := Some(account), prepared := Some(Signed(operation, m)),
                    journalVersion := Some(version));
    v := Put(w1, id, Releasing(done)).(
      history := w.history + [Write(Stored(version, Durable(operation, m, ReadyToSubmit)), id, false)]);
    assert Step(CFG, w1, Swap(id, Works)) == Some(v) by {
      CommitStep(w1, id, operation, m, version);
    }
    SignStep(w, id, wf, account, Signed(operation, m));
    RunTwo(w, Sign(id, account, Signed(operation, m)), w1, Swap(id, Works), v);
  }

  lemma SignStep(w: World, id: nat, wf: Workflow, account: FreshAccount, prepared: Prepared)
    requires id in w.tasks && w.tasks[id] == Unlocked(wf)
    ensures Step(CFG, w, Sign(id, account, prepared)) == Some(Put(w, id, SignedTask(wf, account, prepared)))
  {
  }

  lemma CommitStep(w: World, id: nat, operation: string, m: Message, version: u64)
    requires m.kind == External && version as int == |w.history| + 1 && Free(w.history) && id in w.tasks
    requires w.tasks[id] == SignedTask(Accepted(operation, Slot(w.history)), FreshAccount(Active, m.seqno), Signed(operation, m))
    ensures Step(CFG, w, Swap(id, Works)) ==
            Some(Put(w, id, Releasing(Accepted(operation, Slot(w.history)).(
                                        stage := Submitting, account := Some(FreshAccount(Active, m.seqno)),
                                        prepared := Some(Signed(operation, m)), journalVersion := Some(version)))).(
                   history := w.history + [Write(Stored(version, Durable(operation, m, ReadyToSubmit)), id, false)]))
  {
    SignedIsCommitting(operation, m, w.history, version);
    var Committing(wf, mutation) := w.tasks[id];
    var record := Stored(version, Durable(operation, m, ReadyToSubmit));
    assert Store(w.history, mutation, id, OverwritesUnsettled(w.history))
        == (w.history + [Write(record, id, false)], CasResult(true, Some(record))) by {
      FreeSlotStores(w.history, mutation, id);
    }
    CommitNext(wf, version, CasResult(true, Some(record)));
    CommitSwaps(w, id, wf, mutation, w.history + [Write(record, id, false)], CasResult(true, Some(record)));
  }

  lemma CommitSwaps(w: World, id: nat, wf: Workflow, mutation: Mutation, history: seq<Write>, result: CasResult)
    requires id in w.tasks && w.tasks[id] == Committing(wf, mutation)
    requires Store(w.history, mutation, id, OverwritesUnsettled(w.history)) == (history, result)
    requires AfterCommit(wf, result).Releasing?
    ensures Step(CFG, w, Swap(id, Works)) == Some(Put(w, id, AfterCommit(wf, result)).(history := history))
  {
  }

  lemma FreeSlotStores(history: seq<Write>, mutation: Mutation, id: nat)
    requires Free(history) && mutation.expected == SlotVersion(Slot(history))
    requires mutation.replacement.version as int == |history| + 1
    ensures Store(history, mutation, id, OverwritesUnsettled(history))
         == (history + [Write(mutation.replacement, id, false)], CasResult(true, Some(mutation.replacement)))
  {
  }

  lemma RunThree(w: World, es: seq<WorldEvent>, w1: World, w2: World, w3: World)
    requires |es| == 3
    requires Step(CFG, w, es[0]) == Some(w1) && Step(CFG, w1, es[1]) == Some(w2) && Step(CFG, w2, es[2]) == Some(w3)
    ensures Run(CFG, w, es) == Some(w3)
  {
    RunStep(w2, es[2], w3, []);
    RunStep(w1, es[1], w2, [es[2]]);
    RunStep(w, es[0], w1, [es[1], es[2]]);
    assert es == [es[0]] + [es[1], es[2]];
  }

  lemma RunTwo(w: World, e1: WorldEvent, w1: World, e2: WorldEvent, w2: World)
    requires Step(CFG, w, e1) == Some(w1) && Step(CFG, w1, e2) == Some(w2)
    ensures Run(CFG, w, [e1, e2]) == Some(w2)
  {
    RunStep(w1, e2, w2, []);
    RunStep(w, e1, w1, [e2]);
    assert [e1, e2] == [e1] + [e2];
  }

  /** The stalled message is submitted and forwarded. */
  lemma ReleaseRun(w: World, id: nat, wf: Workflow, m: Message) returns (v: World)
    requires id in w.tasks && w.tasks[id] == Releasing(wf) && wf.prepared.Some? && wf.prepared.value.message == m
    requires id !in w.rejected
    ensures Run(CFG, w, [Release(id), Take(id)]) == Some(v)
    ensures v == w.(tasks := w.tasks[id := InFlight(wf)], handed := w.handed[id := m],
                    network := w.network + {Broadcast(m, Some(id))})
  {
    var w1 := Put(w, id, InFlight(wf)).(handed := w.handed[id := m]);
    v := w1.(network := w.network + {Broadcast(m, Some(id))});
    RunTwo(w, Release(id), w1, Take(id), v);
  }

  /** A forwarded message executes and the index catches up. */
  lemma ExecuteRun(w: World, m: Message, lt: u64) returns (v: World)
    requires OnNetwork(w.network, m) && m.seqno == |w.chain.log| && w.chain.clock <= m.validUntil
    requires w.chain.indexed <= |w.chain.log|
    ensures Run(CFG, w, [Execute(m, lt), Index(|w.chain.log| + 1)]) == Some(v)
    ensures v == w.(chain := Chain(w.chain.log + [Entry(m, w.chain.clock, lt)], w.chain.clock, |w.chain.log| + 1))
  {
    var w1 := w.(chain := w.chain.(log := w.chain.log + [Entry(m, w.chain.clock, lt)]));
    v := w1.(chain := w1.chain.(indexed := |w1.chain.log|));
    RunTwo(w, Execute(m, lt), w1, Index(|w.chain.log| + 1), v);
  }

  function PendingOf(version: u64, operation: string, m: Message): Pending {
    var durable := Durable(operation, m, ReadyToSubmit);
    Pending(version, durable, Stored(version, durable))
  }

  function RecoverEvents(id: nat, time: u64): seq<WorldEvent> {
    [Spawn(Recover), Load(id), ReadTime(id, time)]
  }

  lemma RecoverLoads(version: u64, operation: string, m: Message, time: u64)
    requires version > 0 && m.kind == External
    ensures var p := PendingOf(version, operation, m);
            && AfterLoad(Standalone, Some(p.journal), CFG.owner) == ReadingTime(Standalone, Some(p.journal), Some(p))
            && AfterTime(Standalone, Some(p.journal), Some(p), time)
               == Some(Resolving(Standalone, p, time, FindExecuted))
  {
    var p := PendingOf(version, operation, m);
    assert PendingSendRecord(p.journal, CFG.owner) == Success(Some(p));
  }

  lemma MoveLoad(w: World, id: nat, caller: Caller)
    requires id in w.tasks && w.tasks[id] == Loading(caller)
    ensures Step(CFG, w, Load(id)) == Some(Put(w, id, AfterLoad(caller, Slot(w.history), CFG.owner)))
  {
  }

  lemma MoveTime(w: World, id: nat, caller: Caller, record: Option<JournalRecord>, found: Option<Pending>, time: u64)
    requires id in w.tasks && w.tasks[id] == ReadingTime(caller, record, found) && time <= w.chain.clock
    requires AfterTime(caller, record, found, time).Some?
    ensures Step(CFG, w, ReadTime(id, time)) == Some(Put(w, id, AfterTime(caller, record, found, time).value))
  {
  }

  lemma SpawnRecover(w: World) returns (v: World)
    ensures Step(CFG, w, Spawn(Recover)) == Some(v)
    ensures v == Put(w, w.spawned, Loading(Standalone)).(spawned := w.spawned + 1)
  {
    v := Put(w, w.spawned, Loading(Standalone)).(spawned := w.spawned + 1);
  }

  lemma RecoverRun(w: World, version: u64, operation: string, m: Message, time: u64) returns (v: World)
    requires version > 0 && Slot(w.history) == Some(Stored(version, Durable(operation, m, ReadyToSubmit)))
    requires m.kind == External && time <= w.chain.clock
    ensures Run(CFG, w, RecoverEvents(w.spawned, time)) == Some(v)
    ensures AfterCall(w, v, [])
    ensures v.tasks[w.spawned] == Resolving(Standalone, PendingOf(version, operation, m), time, FindExecuted)
  {
    var id := w.spawned;
    var p := PendingOf(version, operation, m);
    var w1 := SpawnRecover(w);
    var w2 := Put(w1, id, ReadingTime(Standalone, Some(p.journal), Some(p)));
    v := Put(w2, id, Resolving(Standalone, p, time, FindExecuted));
    assert Step(CFG, w1, Load(id)) == Some(w2) by {
      RecoverLoads(version, operation, m, time);
      MoveLoad(w1, id, Standalone);
    }
    assert Step(CFG, w2, ReadTime(id, time)) == Some(v) by {
      RecoverLoads(version, operation, m, time);
      MoveTime(w2, id, Standalone, Some(p.journal), Some(p), time);
    }
    RunThree(w, RecoverEvents(id, time), w1, w2, v);
  }

  /** A recovery call reads the index once. */
  lemma ReadOnce(w: World, id: nat, p: Pending, time: u64, read: Read, mempool: MempoolAnswer)
    requires id in w.tasks && w.tasks[id] == Resolving(Standalone, p, time, read)
    requires w.chain.indexed <= |w.chain.log|
    ensures Step(CFG, w, ReadIndex(id, mempool)) ==
            Some(Put(w, id, AfterVerdict(Standalone, p, time, ReadVerdict(w.chain, p, time, CFG.margin, read, mempool))))
  {
  }

  /** Its conclusion is stored over the slot it inspected. */
  lemma StoreOnce(w: World, id: nat, p: Pending, r: Resolution)
    requires id in w.tasks && w.tasks[id] == Persisting(Standalone, p, r, PERSIST_TRIES)
    requires !r.StillPending? && p.version < U64_MAX && Slot(w.history) == Some(p.journal) && p.journal.version == p.version
    ensures var replacement := JournalRecord(p.version + 1, Encoded(Resolved(p.durable, r)));
            Step(CFG, w, Swap(id, Works)) ==
            Some(Put(w, id, Ended(Settled(p, r, replacement))).(
                   history := w.history + [Write(replacement, SlotAttempt(w.history), false)]))
  {
  }

  lemma Reach(w: World, events: seq<WorldEvent>, v: World)
    requires Reachable(CFG, w) && Run(CFG, w, events) == Some(v)
    ensures Reachable(CFG, v)
  {
    var clock: nat, before: seq<WorldEvent> :| Run(CFG, Start(clock), before) == Some(w);
    RunConcat(Start(clock), before, events);
    assert Run(CFG, Start(clock), before + events) == Some(v);
  }

  lemma ReachOne(w: World, e: WorldEvent, v: World)
    requires Reachable(CFG, w) && Step(CFG, w, e) == Some(v)
    ensures Reachable(CFG, v)
  {
    RunStep(w, e, v, []);
    assert [e] + [] == [e];
    Reach(w, [e], v);
  }

  const FIRST: Write := Write(Stored(1, Durable("rent", PAID, ReadyToSubmit)), 0, false)
  const EXECUTED: Chain := Chain([Entry(PAID, 0, 1)], 0, 1)
  const CONFIRMED: Resolution := Resolution.Confirmed(Transaction(0, 1))

  /** The rent payment is durable and stalls before submission. */
  lemma Scene0() returns (w: World)
    ensures Reachable(CFG, w) && w == Start(0).(tasks := w.tasks, spawned := 1, history := [FIRST])
    ensures 0 in w.tasks && w.tasks[0].Releasing? && w.tasks[0].workflow.prepared == Some(Signed("rent", PAID))
  {
    var start := Start(0);
    assert Run(CFG, start, []) == Some(start);
    var unlocked := OpenRun(start, "rent");
    Reach(start, OpenEvents(0, "rent"), unlocked);
    w := CommitRun(unlocked, 0, "rent", PAID, 1);
    Reach(unlocked, CommitEvents(0, "rent", PAID), w);
  }

  /** It is submitted, executed, and indexed; its record still blocks the slot. */
  lemma Scene1() returns (w: World)
    ensures Reachable(CFG, w) && w.history == [FIRST] && w.chain == EXECUTED && w.spawned == 1
  {
    var w0 := Scene0();
    var released := ReleaseRun(w0, 0, w0.tasks[0].workflow, PAID);
    Reach(w0, [Release(0), Take(0)], released);
    assert Broadcast(PAID, Some(0)) in released.network;
    w := ExecuteRun(released, PAID, 1);
    Reach(released, [Execute(PAID, 1), Index(1)], w);
  }

  lemma ConfirmedVerdict()
    ensures AfterVerdict(Standalone, PendingOf(1, "rent", PAID), 0,
                         ReadVerdict(EXECUTED, PendingOf(1, "rent", PAID), 0, CFG.margin, FindExecuted, Absent))
            == Persisting(Standalone, PendingOf(1, "rent", PAID), CONFIRMED, PERSIST_TRIES)
  {
    assert Position(EXECUTED.log, 1, PAID) == Some(0);
  }

  /** A recovery call that found the payment on the chain and is about to store
      its conclusion. */
  lemma Recovering(w: World) returns (v: World)
    requires Reachable(CFG, w) && w.history == [FIRST] && w.chain == EXECUTED
    ensures Reachable(CFG, v) && v.history == w.history && v.chain == w.chain && v.spawned == w.spawned + 1
    ensures forall j :: j in w.tasks && j < w.spawned ==> j in v.tasks && v.tasks[j] == w.tasks[j]
    ensures w.spawned in v.tasks
    ensures v.tasks[w.spawned] == Persisting(Standalone, PendingOf(1, "rent", PAID), CONFIRMED, PERSIST_TRIES)
  {
    var id := w.spawned;
    var asked := RecoverRun(w, 1, "rent", PAID, 0);
    Reach(w, RecoverEvents(id, 0), asked);
    ReadOnce(asked, id, PendingOf(1, "rent", PAID), 0, FindExecuted, Absent);
    ConfirmedVerdict();
    v := Put(asked, id, Persisting(Standalone, PendingOf(1, "rent", PAID), CONFIRMED, PERSIST_TRIES));
    ReachOne(asked, ReadIndex(id, Absent), v);
  }

  const SECOND: Write := Write(Stored(2, Resolved(Durable("rent", PAID, ReadyToSubmit), CONFIRMED)), 0, false)

  /** Call 1 stalls right before its write while call 2 stores the confirmation. */
  lemma Scene2() returns (w: World)
    ensures Reachable(CFG, w) && w.history == [FIRST, SECOND] && w.chain == EXECUTED && w.spawned == 3
    ensures 1 in w.tasks && w.tasks[1] == Persisting(Standalone, PendingOf(1, "rent", PAID), CONFIRMED, PERSIST_TRIES)
  {
    var w1 := Scene1();
    var w2 := Recovering(w1);
    var w3 := Recovering(w2);
    StoreOnce(w3, 2, PendingOf(1, "rent", PAID), CONFIRMED);
    w := Step(CFG, w3, Swap(2, Works)).value;
    ReachOne(w3, Swap(2, Works), w);
  }

  const THIRD: Write := Write(Stored(3, Durable("gift", UNPAID, ReadyToSubmit)), 3, false)

  /** The freed slot takes a second payment that never gets out, and its window
      closes. */
  lemma Scene3() returns (w: World)
    ensures Reachable(CFG, w) && w.history == [FIRST, SECOND, THIRD] && w.spawned == 4
    ensures w.chain == EXECUTED.(clock := 2000)
    ensures 1 in w.tasks && w.tasks[1] == Persisting(Standalone, PendingOf(1, "rent", PAID), CONFIRMED, PERSIST_TRIES)
  {
    var w2 := Scene2();
    assert Decode(SECOND.record) == Success(Resolved(Durable("rent", PAID, ReadyToSubmit), CONFIRMED));
    assert Free(w2.history);
    var unlocked := OpenRun(w2, "gift");
    Reach(w2, OpenEvents(3, "gift"), unlocked);
    var committed := CommitRun(unlocked, 3, "gift", UNPAID, 3);
    Reach(unlocked, CommitEvents(3, "gift", UNPAID), committed);
    w := committed.(chain := EXECUTED.(clock := 2000));
    ReachOne(committed, Clock(2000), w);
  }

  lemma ExpiredVerdicts()
    ensures var c, p := EXECUTED.(clock := 2000), PendingOf(3, "gift", UNPAID);
            && ReadVerdict(c, p, 2000, CFG.margin, FindExecuted, Absent) == Ask(Mempool)
            && ReadVerdict(c, p, 2000, CFG.margin, Mempool, Absent) == Ask(Seqno(true))
            && ReadVerdict(c, p, 2000, CFG.margin, Seqno(true), Absent) == Conclude(Resolution.Expired)
  {
  }

  const FOURTH: Write := Write(Stored(4, Resolved(Durable("gift", UNPAID, ReadyToSubmit), Resolution.Expired)), 3, false)

  /** One index read of call 4 that only moves it to its next state. */
  lemma ReadOn(w: World, p: Pending, read: Read, next: Task) returns (v: World)
    requires Reachable(CFG, w) && w.chain == EXECUTED.(clock := 2000)
    requires 4 in w.tasks && w.tasks[4] == Resolving(Standalone, p, 2000, read)
    requires AfterVerdict(Standalone, p, 2000, ReadVerdict(w.chain, p, 2000, CFG.margin, read, Absent)) == next
    ensures Reachable(CFG, v) && v == Put(w, 4, next)
  {
    v := Put(w, 4, next);
    ReadOnce(w, 4, p, 2000, read, Absent);
    ReachOne(w, ReadIndex(4, Absent), v);
  }

  /** Call 4 recovers the second payment and finds it expired. */
  lemma Scene3Asked() returns (w: World)
    ensures Reachable(CFG, w) && w.history == [FIRST, SECOND, THIRD] && w.chain == EXECUTED.(clock := 2000)
    ensures 1 in w.tasks && w.tasks[1] == Persisting(Standalone, PendingOf(1, "rent", PAID), CONFIRMED, PERSIST_TRIES)
    ensures 4 in w.tasks
    ensures w.tasks[4] == Persisting(Standalone, PendingOf(3, "gift", UNPAID), Resolution.Expired, PERSIST_TRIES)
  {
    var w3 := Scene3();
    var p := PendingOf(3, "gift", UNPAID);
    var w4 := RecoverRun(w3, 3, "gift", UNPAID, 2000);
    Reach(w3, RecoverEvents(4, 2000), w4);
    w := AskedOut(w4, p);
  }

  lemma AskedOut(w4: World, p: Pending) returns (w: World)
    requires Reachable(CFG, w4) && w4.chain == EXECUTED.(clock := 2000) && p == PendingOf(3, "gift", UNPAID)
    requires 4 in w4.tasks && w4.tasks[4] == Resolving(Standalone, p, 2000, FindExecuted)
    ensures Reachable(CFG, w) && w == Put(w4, 4, Persisting(Standalone, p, Resolution.Expired, PERSIST_TRIES))
  {
    ExpiredVerdicts();
    var w5 := ReadOn(w4, p, FindExecuted, Resolving(Standalone, p, 2000, Mempool));
    var w6 := ReadOn(w5, p, Mempool, Resolving(Standalone, p, 2000, Seqno(true)));
    w := ReadOn(w6, p, Seqno(true), Persisting(Standalone, p, Resolution.Expired, PERSIST_TRIES));
    assert w.tasks == w4.tasks[4 := Persisting(Standalone, p, Resolution.Expired, PERSIST_TRIES)];
  }

  /** Call 4 stores that the second payment expired. */
  lemma Scene4() returns (w: World)
    ensures Reachable(CFG, w) && w.history == [FIRST, SECOND, THIRD, FOURTH]
    ensures w.chain == EXECUTED.(clock := 2000)
    ensures 1 in w.tasks && w.tasks[1] == Persisting(Standalone, PendingOf(1, "rent", PAID), CONFIRMED, PERSIST_TRIES)
  {
    var w7 := Scene3Asked();
    StoreOnce(w7, 4, PendingOf(3, "gift", UNPAID), Resolution.Expired);
    w := Step(CFG, w7, Swap(4, Works)).value;
    ReachOne(w7, Swap(4, Works), w);
  }

  /** The stalled call 1 now loses its compare and swap, finds a settled record
      of the other payment, and reports the executed rent payment as expired. */
  lemma RecoveryCanMisreport() returns (w: World)
    ensures Reachable(CFG, w) && CFG.lag <= CFG.margin
    ensures 1 in w.tasks
    ensures w.tasks[1] == Ended(Settled(PendingOf(1, "rent", PAID), Resolution.Expired, FOURTH.record))
    ensures Executed(w.chain, PAID)
  {
    var w4 := Scene4();
    var p := PendingOf(1, "rent", PAID);
    assert w4.history[3] == FOURTH && Slot(w4.history) == Some(FOURTH.record);
    LostToOtherPayment();
    w := Put(w4, 1, Ended(Settled(p, Resolution.Expired, FOURTH.record)));
    assert Step(CFG, w4, Swap(1, Works)) == Some(w);
    ReachOne(w4, Swap(1, Works), w);
    assert w.chain.log[0].message == PAID;
  }

  lemma LostToOtherPayment()
    ensures var p := PendingOf(1, "rent", PAID);
            var replacement := Stored(2, Resolved(p.durable, CONFIRMED));
            && TerminalMutation(p, CONFIRMED) == Success(Some(Mutation(Some(1), replacement)))
            && AfterCas(p, CONFIRMED, replacement, CasResult(false, Some(FOURTH.record)))
               == PersistStep.Done(Resolution.Expired, FOURTH.record)
  {
    ResolvedReads(CFG.owner, Durable("gift", UNPAID, ReadyToSubmit), 4, Resolution.Expired);
  }
}
