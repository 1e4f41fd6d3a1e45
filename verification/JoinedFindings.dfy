/** A joint run in which a send of the client has stored its message and is about to
    release it. */
module JoinedFindings {
  import opened Basics
  import opened SendReducer
  import opened ResolutionRules
  import opened Protocol
  import opened ProtocolFindings
  import ClientModel
  import ClientRuns
  import opened JoinedSends

  const OPERATION: string := "payment"

  /** The call once it has signed. */
  const SIGNED: Task :=
    SignedTask(ProtocolFindings.Accepted(OPERATION, None), FreshAccount(Active, PAID.seqno), Signed(OPERATION, PAID))

  ghost predicate Leads(j: Joint, events: seq<JointEvent>, k: Joint) {
    JointRun(CFG, j, events) == Some(k)
  }

  lemma {:induction false} LeadsOn(j: Joint, events: seq<JointEvent>, k: Joint, e: JointEvent, l: Joint)
    requires Leads(j, events, k) && JointStep(CFG, k, e) == Some(l)
    ensures Leads(j, events + [e], l)
    decreases |events|
  {
    if events == [] {
      assert ([] + [e])[1..] == [];
      assert JointRun(CFG, l, []) == Some(l);
    } else {
      assert (events + [e])[1..] == events[1..] + [e];
      LeadsOn(JointStep(CFG, j, events[0]).value, events[1..], k, e, l);
    }
  }

  /** The client's send of generation one runs as call zero. */
  ghost predicate Underway(j: Joint, task: Task) {
    && j.calls == map[1 := 0] && 1 !in j.reported
    && j.world.tasks == map[0 := task] && j.world.spawned == 1
    && ClientModel.IsCurrent(j.client.state, ClientModel.Send, 1) && !j.client.state.shutdown
    && ClientRuns.Key(ClientModel.Send, 1) in j.client.owned
  }

  lemma StartsOne(snapshot: ClientModel.Snapshot, n: nat) returns (j: Joint)
    requires n < U64_MAX
    ensures JointStep(CFG, Opening(snapshot, 0), SendStarts(SendCall(OPERATION), n)) == Some(j)
    ensures Underway(j, Loading(ForSend(Fresh(OPERATION)))) && j.world == j.world.(chain := Start(0).chain, history := [])
  {
    var start := Opening(snapshot, 0);
    var w := SpawnSend(start.world, OPERATION);
    j := JointStep(CFG, start, SendStarts(SendCall(OPERATION), n)).value;
  }

  /** A step of the call that is not its commit. */
  lemma WorldMovesOn(j: Joint, e: WorldEvent, w: World) returns (k: Joint)
    requires Step(CFG, j.world, e) == Some(w) && Cleared(j, e)
    ensures JointStep(CFG, j, OnWorld(e)) == Some(k) && k == j.(world := w)
  {
    k := j.(world := w);
  }

  lemma CommitsOne(j: Joint, task: Task) returns (k: Joint)
    requires Underway(j, task) && task.Committing?
    ensures JointStep(CFG, j, OnClient(ClientRuns.Op(ClientRuns.Key(ClientModel.Send, 1), ClientRuns.Commits))) == Some(k)
    ensures k == j.(client := k.client, passed := j.passed + {1})
  {
    var e := ClientRuns.Op(ClientRuns.Key(ClientModel.Send, 1), ClientRuns.Commits);
    k := BlockStep(j, e);
  }

  /** A step of the call before its commit. */
  lemma CallMoves(j: Joint, e: WorldEvent, task: Task, next: Task) returns (k: Joint)
    requires Underway(j, task) && !e.Swap? && Step(CFG, j.world, e) == Some(Put(j.world, 0, next))
    ensures JointStep(CFG, j, OnWorld(e)) == Some(k) && Underway(k, next)
    ensures k.world.history == j.world.history && k.world.chain == j.world.chain
  {
    assert Cleared(j, e);
    k := WorldMovesOn(j, e, Put(j.world, 0, next));
  }

  /** Signed, and at its commit. */
  lemma SignsOne(j: Joint) returns (k: Joint, e: JointEvent)
    requires Underway(j, Unlocked(ProtocolFindings.Accepted(OPERATION, None))) && j.world.history == []
    ensures JointStep(CFG, j, e) == Some(k) && k.world.history == []
    ensures Underway(k, SIGNED) && SIGNED.Committing?
  {
    var wf, account := ProtocolFindings.Accepted(OPERATION, None), FreshAccount(Active, PAID.seqno);
    var signed := Signed(OPERATION, PAID);
    SignStep(j.world, 0, wf, account, signed);
    k := CallMoves(j, Sign(0, account, signed), Unlocked(wf), SIGNED);
    e := OnWorld(Sign(0, account, signed));
    assert SIGNED.Committing? by { SignedIsCommitting(OPERATION, PAID, [], 1); }
  }

  lemma StoresOne(j: Joint) returns (k: Joint)
    requires j.calls == map[1 := 0] && 1 in j.passed && j.world.history == [] && 0 in j.world.tasks
    requires j.world.tasks[0] == SIGNED
    ensures JointStep(CFG, j, OnWorld(Swap(0, Works))) == Some(k) && k.calls == j.calls
    ensures 0 in k.world.tasks && k.world.tasks[0].Releasing?
  {
    CommitStep(j.world, 0, OPERATION, PAID, 1);
    k := WorldMovesOn(j, Swap(0, Works), Step(CFG, j.world, Swap(0, Works)).value);
  }

  lemma SignedAndStored(start: Joint, events: seq<JointEvent>, j: Joint) returns (k: Joint, more: seq<JointEvent>)
    requires Leads(start, events, j) && Underway(j, Unlocked(ProtocolFindings.Accepted(OPERATION, None))) && j.world.history == []
    ensures Leads(start, more, k) && k.calls == map[1 := 0] && 0 in k.world.tasks && k.world.tasks[0].Releasing?
  {
    var j1, e1 := SignsOne(j);
    LeadsOn(start, events, j, e1, j1);
    var j2 := CommitsOne(j1, j1.world.tasks[0]);
    var e2 := OnClient(ClientRuns.Op(ClientRuns.Key(ClientModel.Send, 1), ClientRuns.Commits));
    LeadsOn(start, events + [e1], j1, e2, j2);
    k := StoresOne(j2);
    LeadsOn(start, events + [e1] + [e2], j2, OnWorld(Swap(0, Works)), k);
    more := events + [e1] + [e2] + [OnWorld(Swap(0, Works))];
  }

  lemma LoadsOne(j: Joint) returns (k: Joint)
    requires Underway(j, Loading(ForSend(Fresh(OPERATION)))) && j.world.history == []
    ensures JointStep(CFG, j, OnWorld(Load(0))) == Some(k) && k.world.history == []
    ensures Underway(k, ReadingTime(ForSend(Fresh(OPERATION)), None, None))
  {
    var caller := ForSend(Fresh(OPERATION));
    FreeSlotIsAccepted(OPERATION, []);
    MoveLoad(j.world, 0, caller);
    k := CallMoves(j, Load(0), Loading(caller), ReadingTime(caller, None, None));
  }

  lemma ReadsTimeOne(j: Joint) returns (k: Joint)
    requires Underway(j, ReadingTime(ForSend(Fresh(OPERATION)), None, None)) && j.world.history == []
    ensures JointStep(CFG, j, OnWorld(ReadTime(0, 0))) == Some(k) && k.world.history == []
    ensures Underway(k, Unlocked(ProtocolFindings.Accepted(OPERATION, None)))
  {
    var caller := ForSend(Fresh(OPERATION));
    FreeSlotIsAccepted(OPERATION, []);
    MoveTime(j.world, 0, caller, None, None, 0);
    var unlocked := Unlocked(ProtocolFindings.Accepted(OPERATION, None));
    k := CallMoves(j, ReadTime(0, 0), ReadingTime(caller, None, None), unlocked);
  }

  lemma Unlocks(start: Joint, events: seq<JointEvent>, j: Joint) returns (k: Joint, more: seq<JointEvent>)
    requires Leads(start, events, j) && Underway(j, Loading(ForSend(Fresh(OPERATION)))) && j.world.history == []
    ensures Leads(start, more, k) && k.world.history == []
    ensures Underway(k, Unlocked(ProtocolFindings.Accepted(OPERATION, None)))
  {
    var j1 := LoadsOne(j);
    LeadsOn(start, events, j, OnWorld(Load(0)), j1);
    k := ReadsTimeOne(j1);
    LeadsOn(start, events + [OnWorld(Load(0))], j1, OnWorld(ReadTime(0, 0)), k);
    more := events + [OnWorld(Load(0))] + [OnWorld(ReadTime(0, 0))];
  }

  /** Start, load, time, signature, commit block, and compare and swap: a send that
      is stored and not over, as `InFlightIsGuarded` speaks of. */
  lemma StoredSendIsReached(snapshot: ClientModel.Snapshot) returns (j: Joint)
    ensures Reached(CFG, j) && 1 in j.calls
    ensures Stirs(j.world, j.calls[1]) && !CallOver(j.world, j.calls[1])
  {
    var start, begin := Opening(snapshot, 0), SendStarts(SendCall(OPERATION), 3);
    var j0 := StartsOne(snapshot, 3);
    assert Leads(start, [], start);
    LeadsOn(start, [], start, begin, j0);
    var j1, e1 := Unlocks(start, [] + [begin], j0);
    var e2;
    j, e2 := SignedAndStored(start, e1, j1);
    assert JointRun(CFG, Opening(snapshot, 0), e2) == Some(j);
  }
}
