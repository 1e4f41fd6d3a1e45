/** One wallet client and the durable protocol together: a send of the client is a
    call of the protocol, whose journal commit runs only after the client's commit
    block accepted it and whose last block runs only after the call is over
    (src/engine/send.rs, send_state.rs). Other calls of the protocol belong to
    other clients of the same wallet and are not restricted. */
module JoinedSends {
  import opened Basics
  import opened ResolutionRules
  import opened Protocol
  import ClientModel
  import ClientRuns
  import ClientSafety
  import ClientTheorems
  import ClientListeners

  /** `calls` gives each send of the client its protocol call, by generation;
      `passed` holds the sends whose commit block succeeded, `reported` the sends
      that ran their last block. */
  datatype Joint = Joint(
    client: ClientRuns.Client,
    world: World,
    calls: map<u64, nat>,
    passed: set<u64>,
    reported: set<u64>)

  datatype JointEvent =
    | SendStarts(call: Call, requests: nat)
    | OnClient(block: ClientRuns.ClientEvent)
    | OnWorld(event: WorldEvent)

  function Opening(snapshot: ClientModel.Snapshot, clock: nat): Joint {
    Joint(ClientRuns.NewClient(snapshot), Protocol.Start(clock), map[], {}, {})
  }

  predicate CommitsSend(e: ClientRuns.ClientEvent) {
    e.Op? && e.key.family == ClientModel.Send && e.block.Commits?
  }

  predicate EndsSend(e: ClientRuns.ClientEvent) {
    e.Op? && ClientTheorems.EndsItself(e, e.key.generation)
  }

  /** A send commits with its call at the commit, and ends after its call did. */
  predicate InTurn(j: Joint, e: ClientRuns.ClientEvent) {
    e.Op? && e.key.generation in j.calls ==>
      var id := j.calls[e.key.generation];
      && (CommitsSend(e) ==> id in j.world.tasks && j.world.tasks[id].Committing?)
      && (EndsSend(e) ==> id in j.world.tasks && j.world.tasks[id].Ended?)
  }

  /** Call `id` is at its durable commit. */
  predicate AtCommit(w: World, e: WorldEvent, id: nat) {
    e.Swap? && e.task == id && id in w.tasks && w.tasks[id].Committing?
  }

  predicate Cleared(j: Joint, e: WorldEvent) {
    forall g :: g in j.calls && AtCommit(j.world, e, j.calls[g]) ==> g in j.passed
  }

  function StartStep(cfg: Config, j: Joint, call: Call, requests: nat): Option<Joint>
    requires call.Send?
  {
    var (client, reply) := ClientRuns.Step(j.client, ClientRuns.BeginSend(CallerOf(cfg, call).workflow, requests));
    if !reply.Started? then Some(j.(client := client))
    else
      var world := Step(cfg, j.world, Spawn(call));
      if world.None? then None
      else Some(j.(client := client, world := world.value, calls := j.calls[reply.generation := j.world.spawned]))
  }

  function BlockStep(j: Joint, e: ClientRuns.ClientEvent): Joint {
    var (client, reply) := ClientRuns.Step(j.client, e);
    var passed := if CommitsSend(e) && e.key.generation in j.calls && reply.Done? then j.passed + {e.key.generation}
                  else j.passed;
    var reported := if EndsSend(e) && e.key.generation in j.calls then j.reported + {e.key.generation} else j.reported;
    j.(client := client, passed := passed, reported := reported)
  }

  function JointStep(cfg: Config, j: Joint, e: JointEvent): Option<Joint> {
    match e
    case SendStarts(call, requests) => if call.Send? then StartStep(cfg, j, call, requests) else None
    case OnClient(block) => if !block.BeginSend? && InTurn(j, block) then Some(BlockStep(j, block)) else None
    case OnWorld(event) =>
      if !Cleared(j, event) then None
      else
        match Step(cfg, j.world, event)
        case None => None
        case Some(world) => Some(j.(world := world))
  }

  function JointRun(cfg: Config, j: Joint, events: seq<JointEvent>): Option<Joint>
    decreases |events|
  {
    if events == [] then Some(j)
    else
      match JointStep(cfg, j, events[0])
      case None => None
      case Some(next) => JointRun(cfg, next, events[1..])
  }

  // ----- calls that have not committed -----

  predicate BeforeRelease(task: Task) {
    !task.Releasing? && !task.InFlight? && !task.Closing?
  }

  /** Nothing of call `id` was stored or left the wallet. */
  ghost predicate Quiet(w: World, id: nat) {
    && id < w.spawned
    && id !in w.handed
    && (forall i :: 0 <= i < |w.history| ==> w.history[i].attempt != id)
    && (id in w.tasks ==> BeforeRelease(w.tasks[id]))
  }

  lemma SwapKeepsQuiet(w: World, other: nat, task: Task, fault: Fault, id: nat)
    requires Quiet(w, id) && other in w.tasks && w.tasks[other] == task
    requires other == id ==> !task.Committing?
    requires SwapStep(w, other, task, fault).Some?
    ensures Quiet(SwapStep(w, other, task, fault).value, id)
  {
    var v := SwapStep(w, other, task, fault).value;
    if task.Persisting? {
      assert v.handed == w.handed;
      assert other == id ==> BeforeRelease(v.tasks[id]);
    }
  }

  lemma TaskKeepsQuiet(cfg: Config, w: World, other: nat, e: WorldEvent, id: nat)
    requires Quiet(w, id) && other in w.tasks && !AtCommit(w, e, id)
    requires e.Swap? ==> e.task == other
    requires TaskStep(cfg, w, other, w.tasks[other], e).Some?
    ensures Quiet(TaskStep(cfg, w, other, w.tasks[other], e).value, id)
  {
    var task := w.tasks[other];
    if e.Swap? {
      SwapKeepsQuiet(w, other, task, e.fault, id);
    }
  }

  lemma StepKeepsQuiet(cfg: Config, w: World, e: WorldEvent, id: nat)
    requires Quiet(w, id) && !AtCommit(w, e, id) && Step(cfg, w, e).Some?
    ensures Quiet(Step(cfg, w, e).value, id)
  {
    if e.Clock? || e.Index? || e.Execute? || e.Outside? || e.Take? || e.Spawn? || e.Crash? {
    } else {
      TaskKeepsQuiet(cfg, w, e.task, e, id);
    }
  }

  /** A call that is over stays over and hands nothing out any more. */
  predicate CallOver(w: World, id: nat) {
    id < w.spawned && (id in w.tasks ==> w.tasks[id].Ended?)
  }

  lemma StepKeepsOver(cfg: Config, w: World, e: WorldEvent, id: nat)
    requires CallOver(w, id) && Step(cfg, w, e).Some?
    ensures CallOver(Step(cfg, w, e).value, id)
    ensures id in Step(cfg, w, e).value.handed <==> id in w.handed
  {
  }

  /** Calls that were not started yet left no trace. */
  ghost predicate Untouched(w: World) {
    && (forall a :: a in w.handed ==> a < w.spawned)
    && (forall i :: 0 <= i < |w.history| ==> w.history[i].attempt < w.spawned)
    && (forall a :: a in w.tasks ==> a < w.spawned)
  }

  lemma SwapKeepsUntouched(w: World, id: nat, fault: Fault)
    requires Untouched(w) && id in w.tasks && SwapStep(w, id, w.tasks[id], fault).Some?
    ensures Untouched(SwapStep(w, id, w.tasks[id], fault).value)
  {
  }

  lemma StepKeepsUntouched(cfg: Config, w: World, e: WorldEvent)
    requires Untouched(w) && Step(cfg, w, e).Some?
    ensures Untouched(Step(cfg, w, e).value)
  {
    if e.Swap? {
      SwapKeepsUntouched(w, e.task, e.fault);
    }
  }

  // ----- the invariant -----

  /** A committed send keeps its flag as long as it keeps its slot. */
  predicate Held(s: ClientModel.State, g: u64) {
    ClientModel.IsCurrent(s, ClientModel.Send, g) ==> s.commitStarted
  }

  lemma StepKeepsHeld(c: ClientRuns.Client, e: ClientRuns.ClientEvent, g: u64)
    requires ClientSafety.StateOk(c.state) && Held(c.state, g) && g <= ClientModel.Generation(c.state, ClientModel.Send)
    ensures Held(ClientRuns.Step(c, e).0.state, g)
    ensures ClientModel.IsCurrent(c.state, ClientModel.Send, g) && !ClientTheorems.EndsItself(e, g) ==>
              ClientModel.IsCurrent(ClientRuns.Step(c, e).0.state, ClientModel.Send, g)
  {
    if !ClientModel.IsCurrent(c.state, ClientModel.Send, g) {
      ClientTheorems.StepStaysGone(c, e, ClientModel.Send, g);
    } else if !ClientTheorems.EndsItself(e, g) {
      ClientTheorems.StepKeepsCommit(c, e, g);
    }
  }

  /** A send that did not pass its commit left no trace; one that passed is the
      client's committed send until its last block; and then its call is over. */
  ghost predicate SendOk(j: Joint, g: u64)
    requires g in j.calls
  {
    var s, id := j.client.state, j.calls[g];
    && id < j.world.spawned && g <= ClientModel.Generation(s, ClientModel.Send)
    && (g !in j.passed ==> Quiet(j.world, id))
    && (g in j.passed ==> Held(s, g))
    && (g in j.passed && g !in j.reported ==> ClientModel.IsCurrent(s, ClientModel.Send, g))
    && (g in j.reported ==> CallOver(j.world, id))
  }

  ghost predicate JointOk(j: Joint) {
    && ClientSafety.StateOk(j.client.state) && Untouched(j.world)
    && j.passed <= j.calls.Keys && j.reported <= j.calls.Keys
    && (forall g :: g in j.calls ==> SendOk(j, g))
  }

  lemma WorldKeeps(cfg: Config, j: Joint, e: WorldEvent)
    requires JointOk(j) && JointStep(cfg, j, OnWorld(e)).Some?
    ensures JointOk(JointStep(cfg, j, OnWorld(e)).value)
  {
    var k := JointStep(cfg, j, OnWorld(e)).value;
    StepKeepsUntouched(cfg, j.world, e);
    forall g | g in k.calls ensures SendOk(k, g) {
      assert SendOk(j, g);
      var id := j.calls[g];
      assert j.world.spawned <= k.world.spawned;
      if g !in j.passed {
        StepKeepsQuiet(cfg, j.world, e, id);
      }
      if g in j.reported {
        StepKeepsOver(cfg, j.world, e, id);
      }
    }
  }

  lemma CommitPasses(c: ClientRuns.Client, e: ClientRuns.ClientEvent)
    requires CommitsSend(e) && ClientRuns.Step(c, e).1.Done?
    ensures ClientTheorems.Committed(ClientRuns.Step(c, e).0.state, e.key.generation)
  {
  }

  lemma BlockKeepsSend(j: Joint, e: ClientRuns.ClientEvent, g: u64)
    requires JointOk(j) && g in j.calls && !e.BeginSend? && InTurn(j, e)
    ensures SendOk(BlockStep(j, e), g)
  {
    assert SendOk(j, g);
    ClientTheorems.GenerationsGrow(j.client, e, ClientModel.Send);
    var k := BlockStep(j, e);
    if g in j.passed {
      StepKeepsHeld(j.client, e, g);
    } else if g in k.passed {
      CommitPasses(j.client, e);
    }
  }

  lemma BlockKeeps(j: Joint, e: ClientRuns.ClientEvent)
    requires JointOk(j) && !e.BeginSend? && InTurn(j, e)
    ensures JointOk(BlockStep(j, e))
  {
    ClientSafety.StepStateOk(j.client, e);
    forall g | g in j.calls ensures SendOk(BlockStep(j, e), g) {
      BlockKeepsSend(j, e, g);
    }
  }

  lemma StartedIsNew(c: ClientRuns.Client, e: ClientRuns.ClientEvent)
    requires e.BeginSend? && ClientRuns.Step(c, e).1.Started?
    ensures var (d, reply) := ClientRuns.Step(c, e);
            && reply.generation == ClientModel.Generation(d.state, ClientModel.Send)
            && ClientModel.Generation(c.state, ClientModel.Send) < reply.generation
  {
  }

  lemma SpawnKeeps(cfg: Config, w: World, call: Call, id: nat)
    ensures var v := Step(cfg, w, Spawn(call)).value;
            && v.spawned == w.spawned + 1
            && (Quiet(w, id) ==> Quiet(v, id)) && (CallOver(w, id) ==> CallOver(v, id))
            && (Untouched(w) ==> Quiet(v, w.spawned) && Untouched(v))
  {
  }

  lemma StartKeepsSend(cfg: Config, j: Joint, call: Call, requests: nat, g: u64)
    requires JointOk(j) && call.Send? && g in j.calls
    ensures var k := StartStep(cfg, j, call, requests).value; g in k.calls && SendOk(k, g)
  {
    var e := ClientRuns.BeginSend(CallerOf(cfg, call).workflow, requests);
    assert SendOk(j, g);
    ClientTheorems.GenerationsGrow(j.client, e, ClientModel.Send);
    SpawnKeeps(cfg, j.world, call, j.calls[g]);
    if ClientRuns.Step(j.client, e).1.Started? {
      StartedIsNew(j.client, e);
    }
    if g in j.passed {
      StepKeepsHeld(j.client, e, g);
    }
  }

  lemma StartKeeps(cfg: Config, j: Joint, call: Call, requests: nat)
    requires JointOk(j) && call.Send?
    ensures StartStep(cfg, j, call, requests).Some? && JointOk(StartStep(cfg, j, call, requests).value)
  {
    var e := ClientRuns.BeginSend(CallerOf(cfg, call).workflow, requests);
    var k := StartStep(cfg, j, call, requests).value;
    ClientSafety.StepStateOk(j.client, e);
    if ClientRuns.Step(j.client, e).1.Started? {
      StartedIsNew(j.client, e);
      SpawnKeeps(cfg, j.world, call, 0);
    }
    forall g | g in k.calls ensures SendOk(k, g) {
      if g in j.calls {
        StartKeepsSend(cfg, j, call, requests, g);
      }
    }
  }

  lemma JointStepOk(cfg: Config, j: Joint, e: JointEvent)
    requires JointOk(j) && JointStep(cfg, j, e).Some?
    ensures JointOk(JointStep(cfg, j, e).value)
  {
    match e
    case SendStarts(call, requests) => StartKeeps(cfg, j, call, requests);
    case OnClient(block) => BlockKeeps(j, block);
    case OnWorld(event) => WorldKeeps(cfg, j, event);
  }

  lemma {:induction false} JointRunOk(cfg: Config, j: Joint, events: seq<JointEvent>)
    requires JointOk(j) && JointRun(cfg, j, events).Some?
    ensures JointOk(JointRun(cfg, j, events).value)
    decreases |events|
  {
    if events != [] {
      JointStepOk(cfg, j, events[0]);
      JointRunOk(cfg, JointStep(cfg, j, events[0]).value, events[1..]);
    }
  }

  // ----- what holds of the two together -----

  ghost predicate Reached(cfg: Config, j: Joint) {
    exists snapshot, clock: nat, events :: JointRun(cfg, Opening(snapshot, clock), events) == Some(j)
  }

  lemma ReachedOk(cfg: Config, j: Joint)
    requires Reached(cfg, j)
    ensures JointOk(j)
  {
    var snapshot, clock: nat, events :| JointRun(cfg, Opening(snapshot, clock), events) == Some(j);
    JointRunOk(cfg, Opening(snapshot, clock), events);
  }

  /** Something of call `id` is durable or outside the wallet, or about to be. */
  ghost predicate Stirs(w: World, id: nat) {
    || id in w.handed
    || (exists i :: 0 <= i < |w.history| && w.history[i].attempt == id)
    || (id in w.tasks && !BeforeRelease(w.tasks[id]))
  }

  /** A send whose message is stored, released, or in flight passed its commit
      block; and while it is on the way its client still holds it: the tests the call
      makes on its way succeed, cancelling is too late, shutdown waits, and no other
      send or recovery starts. */
  lemma InFlightIsGuarded(cfg: Config, j: Joint, g: u64)
    requires Reached(cfg, j) && g in j.calls && Stirs(j.world, j.calls[g])
    ensures g in j.passed
    ensures CallOver(j.world, j.calls[g]) || (g !in j.reported && ClientTheorems.Committed(j.client.state, g))
    ensures !CallOver(j.world, j.calls[g]) ==>
              && ClientModel.Check(j.client.state, ClientModel.Send, g) == ClientModel.Done
              && ClientRuns.Step(j.client, ClientRuns.CancelsSend) == (j.client, ClientModel.Denied(ClientModel.TooLate))
              && ClientRuns.Step(j.client, ClientRuns.ShutsDown).1 == ClientModel.Waiting
              && (forall call: Call, n | call.Send? ::
                    ClientRuns.Step(j.client, ClientRuns.BeginSend(CallerOf(cfg, call).workflow, n)).1.Denied?)
              && (forall n :: ClientRuns.Step(j.client, ClientRuns.BeginResolve(n)).1.Denied?)
  {
    ReachedOk(cfg, j);
    assert SendOk(j, g);
    if !CallOver(j.world, j.calls[g]) {
      ClientTheorems.CommitBoundary(j.client, [], g);
    }
  }

  /** A send that lost its slot before its commit stays silent for ever. */
  lemma {:induction false} GoneStaysQuiet(cfg: Config, j: Joint, g: u64, events: seq<JointEvent>)
    requires JointOk(j) && g in j.calls && g !in j.passed
    requires !ClientModel.IsCurrent(j.client.state, ClientModel.Send, g)
    requires JointRun(cfg, j, events).Some?
    ensures var k := JointRun(cfg, j, events).value; g in k.calls && k.calls[g] == j.calls[g] && Quiet(k.world, j.calls[g])
    decreases |events|
  {
    assert SendOk(j, g);
    if events != [] {
      var k := JointStep(cfg, j, events[0]).value;
      JointStepOk(cfg, j, events[0]);
      StepGone(cfg, j, g, events[0]);
      GoneStaysQuiet(cfg, k, g, events[1..]);
    }
  }

  lemma StepGone(cfg: Config, j: Joint, g: u64, e: JointEvent)
    requires JointOk(j) && g in j.calls && g !in j.passed
    requires !ClientModel.IsCurrent(j.client.state, ClientModel.Send, g)
    requires JointStep(cfg, j, e).Some?
    ensures var k := JointStep(cfg, j, e).value;
            && g in k.calls && k.calls[g] == j.calls[g] && g !in k.passed
            && !ClientModel.IsCurrent(k.client.state, ClientModel.Send, g)
  {
    assert SendOk(j, g);
    match e
    case SendStarts(call, requests) =>
      var start := ClientRuns.BeginSend(CallerOf(cfg, call).workflow, requests);
      ClientTheorems.StepStaysGone(j.client, start, ClientModel.Send, g);
      if ClientRuns.Step(j.client, start).1.Started? {
        StartedIsNew(j.client, start);
      }
    case OnClient(block) =>
      ClientTheorems.StepStaysGone(j.client, block, ClientModel.Send, g);
      if CommitsSend(block) && block.key.generation == g && ClientRuns.Step(j.client, block).1.Done? {
        CommitPasses(j.client, block);
      }
    case OnWorld(_) =>
  }

  lemma CancelTakesSlot(c: ClientRuns.Client, g: u64)
    requires ClientModel.CancelSend(c.state).1.Cancelling?
    ensures !ClientModel.IsCurrent(ClientRuns.Step(c, ClientRuns.CancelsSend).0.state, ClientModel.Send, g)
  {
  }

  /** After a cancellation that succeeded, nothing of that send is ever stored in
      the journal or handed to a provider, whatever this client, the other clients,
      the provider, and the chain do. */
  lemma CancelledNeverReleased(cfg: Config, j: Joint, g: u64, events: seq<JointEvent>)
    requires Reached(cfg, j) && g in j.calls
    requires ClientModel.IsCurrent(j.client.state, ClientModel.Send, g)
    requires ClientModel.CancelSend(j.client.state).1.Cancelling?
    requires JointRun(cfg, BlockStep(j, ClientRuns.CancelsSend), events).Some?
    ensures !Stirs(JointRun(cfg, BlockStep(j, ClientRuns.CancelsSend), events).value.world, j.calls[g])
  {
    ReachedOk(cfg, j);
    assert SendOk(j, g);
    var e := ClientRuns.CancelsSend;
    BlockKeeps(j, e);
    CancelTakesSlot(j.client, g);
    GoneStaysQuiet(cfg, BlockStep(j, e), g, events);
  }

  lemma ShutStep(cfg: Config, j: Joint, e: JointEvent, g: u64)
    requires JointOk(j) && j.client.state.shutdown && JointStep(cfg, j, e).Some?
    ensures var k := JointStep(cfg, j, e).value;
            && k.client.state.shutdown && k.calls == j.calls
            && (g in j.calls ==> (j.calls[g] in k.world.handed <==> j.calls[g] in j.world.handed))
  {
    if e.OnWorld? {
      if g in j.passed {
        assert SendOk(j, g);
        StepKeepsOver(cfg, j.world, e.event, j.calls[g]);
      } else if g in j.calls {
        assert SendOk(j, g);
        StepKeepsQuiet(cfg, j.world, e.event, j.calls[g]);
      }
    } else {
      var block := if e.OnClient? then e.block else ClientRuns.BeginSend(CallerOf(cfg, e.call).workflow, e.requests);
      ClientListeners.StepFrozen(j.client, block);
    }
  }

  /** Once a client was shut down it starts no send, has none on the way, and none
      of its messages leaves the wallet any more. */
  lemma {:induction false} ShutHandsNothingOut(cfg: Config, j: Joint, events: seq<JointEvent>, g: u64)
    requires JointOk(j) && j.client.state.shutdown && JointRun(cfg, j, events).Some?
    ensures var k := JointRun(cfg, j, events).value;
            && k.calls == j.calls
            && (g in k.calls ==>
                  && (k.calls[g] in k.world.handed <==> k.calls[g] in j.world.handed)
                  && (k.calls[g] in k.world.tasks ==> BeforeRelease(k.world.tasks[k.calls[g]])))
    decreases |events|
  {
    if events == [] {
      if g in j.calls {
        assert SendOk(j, g);
      }
    } else {
      JointStepOk(cfg, j, events[0]);
      ShutStep(cfg, j, events[0], g);
      ShutHandsNothingOut(cfg, JointStep(cfg, j, events[0]).value, events[1..], g);
    }
  }

  lemma ShutDownReleasesNothing(cfg: Config, j: Joint, events: seq<JointEvent>, g: u64)
    requires Reached(cfg, j) && j.client.state.shutdown && JointRun(cfg, j, events).Some?
    ensures var k := JointRun(cfg, j, events).value;
            && k.calls == j.calls
            && (g in k.calls ==>
                  && (k.calls[g] in k.world.handed <==> k.calls[g] in j.world.handed)
                  && (k.calls[g] in k.world.tasks ==> BeforeRelease(k.world.tasks[k.calls[g]])))
  {
    ReachedOk(cfg, j);
    ShutHandsNothingOut(cfg, j, events, g);
  }

  // ----- each half alone -----

  /** What a joint event does in the protocol and in the client. */
  function WorldPart(cfg: Config, j: Joint, e: JointEvent): seq<WorldEvent> {
    match e
    case SendStarts(call, requests) =>
      if call.Send? && ClientRuns.Step(j.client, ClientRuns.BeginSend(CallerOf(cfg, call).workflow, requests)).1.Started?
      then [Spawn(call)] else []
    case OnClient(_) => []
    case OnWorld(event) => [event]
  }

  function ClientPart(cfg: Config, e: JointEvent): seq<ClientRuns.ClientEvent> {
    match e
    case SendStarts(call, requests) =>
      if call.Send? then [ClientRuns.BeginSend(CallerOf(cfg, call).workflow, requests)] else []
    case OnClient(block) => [block]
    case OnWorld(_) => []
  }

  function WorldParts(cfg: Config, j: Joint, events: seq<JointEvent>): seq<WorldEvent>
    decreases |events|
  {
    if events == [] || JointStep(cfg, j, events[0]).None? then []
    else WorldPart(cfg, j, events[0]) + WorldParts(cfg, JointStep(cfg, j, events[0]).value, events[1..])
  }

  function ClientParts(cfg: Config, events: seq<JointEvent>): seq<ClientRuns.ClientEvent>
    decreases |events|
  {
    if events == [] then [] else ClientPart(cfg, events[0]) + ClientParts(cfg, events[1..])
  }

  predicate WorldMoves(cfg: Config, w: World, events: seq<WorldEvent>, v: World) {
    |events| <= 1 && if events == [] then v == w else Step(cfg, w, events[0]) == Some(v)
  }

  predicate BlocksMove(c: ClientRuns.Client, events: seq<ClientRuns.ClientEvent>, d: ClientRuns.Client) {
    |events| <= 1 && if events == [] then d == c else ClientRuns.Step(c, events[0]).0 == d
  }

  lemma StepProjects(cfg: Config, j: Joint, e: JointEvent)
    requires JointStep(cfg, j, e).Some?
    ensures WorldMoves(cfg, j.world, WorldPart(cfg, j, e), JointStep(cfg, j, e).value.world)
    ensures BlocksMove(j.client, ClientPart(cfg, e), JointStep(cfg, j, e).value.client)
  {
  }

  /** Every joint run is a run of the protocol and a run of the client, so every
      theorem about either holds of the two together. */
  lemma {:induction false} Projects(cfg: Config, j: Joint, events: seq<JointEvent>)
    requires JointRun(cfg, j, events).Some?
    ensures Run(cfg, j.world, WorldParts(cfg, j, events)) == Some(JointRun(cfg, j, events).value.world)
    ensures ClientRuns.Run(j.client, ClientParts(cfg, events)) == JointRun(cfg, j, events).value.client
    decreases |events|
  {
    if events != [] {
      var k, rest := JointStep(cfg, j, events[0]).value, events[1..];
      Projects(cfg, k, rest);
      StepProjects(cfg, j, events[0]);
      WorldPrefix(cfg, j.world, WorldPart(cfg, j, events[0]), WorldParts(cfg, k, rest), k.world);
      ClientPrefix(j.client, ClientPart(cfg, events[0]), ClientParts(cfg, rest), k.client);
    }
  }

  lemma WorldPrefix(cfg: Config, w: World, first: seq<WorldEvent>, rest: seq<WorldEvent>, v: World)
    requires WorldMoves(cfg, w, first, v)
    ensures Run(cfg, w, first + rest) == Run(cfg, v, rest)
  {
    if first == [] {
      assert first + rest == rest;
    } else {
      assert (first + rest)[1..] == rest;
    }
  }

  lemma ClientPrefix(c: ClientRuns.Client, first: seq<ClientRuns.ClientEvent>, rest: seq<ClientRuns.ClientEvent>,
                     d: ClientRuns.Client)
    requires BlocksMove(c, first, d)
    ensures ClientRuns.Run(c, first + rest) == ClientRuns.Run(d, rest)
  {
    if first == [] {
      assert first + rest == rest;
    } else {
      assert (first + rest)[1..] == rest;
    }
  }
}
