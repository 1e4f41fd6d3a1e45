/** The client's own recoveries beside its sends: `resolve_pending` is a call of the
    protocol that holds the client's resolution slot until its last block, which
    runs after the call is over (src/engine/resolve.rs, resolution.rs). */
module JoinedRecoveries {
  import opened Basics
  import opened Protocol
  import SendReducer
  import ClientModel
  import ClientRuns
  import ClientSafety
  import ClientMoves
  import ClientSlots
  import ClientTheorems
  import ClientListeners
  import opened JoinedSends

  /** `recoveries` gives each recovery of the client its protocol call, `finished`
      holds the recoveries that ran their last block. */
  datatype Full = Full(joint: Joint, recoveries: map<u64, nat>, finished: set<u64>)

  datatype FullEvent =
    | RecoveryStarts(requests: nat)
    | Plain(event: JointEvent)

  predicate EndsRecovery(e: JointEvent, g: u64) {
    && e.OnClient? && e.block.Op? && e.block.key == ClientRuns.Key(ClientModel.Resolve, g)
    && (e.block.block.Completes? || e.block.block.Discards?)
  }

  /** A recovery runs its last block after its call is over. */
  predicate RecoveryInTurn(f: Full, e: JointEvent) {
    forall g :: g in f.recoveries && EndsRecovery(e, g) ==>
      f.recoveries[g] in f.joint.world.tasks && f.joint.world.tasks[f.recoveries[g]].Ended?
  }

  function BeginRecovery(f: Full, requests: nat): (Joint, ClientModel.Reply) {
    var e := ClientRuns.BeginResolve(requests);
    (BlockStep(f.joint, e), ClientRuns.Step(f.joint.client, e).1)
  }

  function FullStep(cfg: Config, f: Full, e: FullEvent): Option<Full> {
    match e
    case RecoveryStarts(requests) =>
      var (j, reply) := BeginRecovery(f, requests);
      if !reply.Started? then Some(f.(joint := j))
      else
        var world := Step(cfg, j.world, Spawn(Recover));
        if world.None? then None
        else Some(Full(j.(world := world.value), f.recoveries[reply.generation := j.world.spawned], f.finished))
    case Plain(event) =>
      if !RecoveryInTurn(f, event) then None
      else
        match JointStep(cfg, f.joint, event)
        case None => None
        case Some(j) => Some(Full(j, f.recoveries, f.finished + set g | g in f.recoveries && EndsRecovery(event, g)))
  }

  function FullRun(cfg: Config, f: Full, events: seq<FullEvent>): Option<Full>
    decreases |events|
  {
    if events == [] then Some(f)
    else
      match FullStep(cfg, f, events[0])
      case None => None
      case Some(next) => FullRun(cfg, next, events[1..])
  }

  // ----- the resolution slot -----

  predicate EndsIt(e: ClientRuns.ClientEvent, g: u64) {
    e.Op? && e.key == ClientRuns.Key(ClientModel.Resolve, g) && (e.block.Completes? || e.block.Discards?)
  }

  /** The recovery holds its slot, or the client was shut down. */
  predicate HoldsOn(s: ClientModel.State, g: u64) {
    ClientModel.IsCurrent(s, ClientModel.Resolve, g) || s.shutdown
  }

  lemma OwnBlockHoldsOn(s: ClientModel.State, key: ClientRuns.Key, b: ClientRuns.Block)
    requires key.family == ClientModel.Resolve && ClientRuns.Fits(ClientModel.Resolve, b)
    requires !b.Completes? && !b.Discards? && ClientModel.IsCurrent(s, ClientModel.Resolve, key.generation)
    ensures ClientModel.IsCurrent(ClientRuns.RunBlock(s, key, b).0, ClientModel.Resolve, key.generation)
  {
  }

  lemma BlockHoldsOn(c: ClientRuns.Client, key: ClientRuns.Key, b: ClientRuns.Block, g: u64)
    requires ClientModel.IsCurrent(c.state, ClientModel.Resolve, g) && !EndsIt(ClientRuns.Op(key, b), g)
    ensures ClientModel.IsCurrent(ClientRuns.Step(c, ClientRuns.Op(key, b)).0.state, ClientModel.Resolve, g)
  {
    if ClientRuns.MayRun(c, key, b) {
      var own := ClientRuns.Key(ClientModel.Resolve, g);
      if key == own {
        OwnBlockHoldsOn(c.state, key, b);
      } else {
        ClientSlots.BlockLeavesOthers(c.state, key, b, own);
      }
    }
  }

  lemma RefreshHoldsOn(s: ClientModel.State, view: ClientModel.View, g: u64)
    requires ClientModel.IsCurrent(s, ClientModel.Resolve, g)
    ensures ClientModel.IsCurrent(ClientModel.StartRefresh(s, view).0, ClientModel.Resolve, g)
  {
    var (reserved, ids) := ClientModel.Allocate(s, if view.Wallet? then 2 else 1);
    var f := view.RefreshFamily();
    if ClientModel.Running(s) && ids.Some? && ClientModel.Bump(reserved, f).Some? {
      var taken := ClientModel.Occupy(ClientModel.Bump(reserved, f).value, f, ids.value);
      var occupied := ClientModel.Vacate(taken, view.PageFamily());
      assert ClientModel.IsCurrent(occupied, ClientModel.Resolve, g);
      var loading := ClientModel.SetResource(ClientModel.SetLoading(occupied, view), view.Page(), ClientModel.ResourceIdle);
      assert loading == occupied.(snapshot := loading.snapshot);
      ClientMoves.PublishServes(loading, ClientModel.Started(ClientModel.Generation(occupied, f), ids.value));
    }
  }

  lemma PageHoldsOn(s: ClientModel.State, view: ClientModel.View, hasMore: bool, g: u64)
    requires ClientModel.IsCurrent(s, ClientModel.Resolve, g)
    ensures ClientModel.IsCurrent(ClientModel.StartPage(s, view, hasMore).0, ClientModel.Resolve, g)
  {
  }

  lemma OtherStartHoldsOn(s: ClientModel.State, workflow: SendReducer.Workflow, n: nat, g: u64)
    requires ClientModel.IsCurrent(s, ClientModel.Resolve, g)
    ensures ClientModel.StartSend(s, workflow, n).0 == s && ClientModel.StartResolve(s, n).0 == s
    ensures ClientModel.IsCurrent(ClientModel.StartPreview(s, n).0, ClientModel.Resolve, g)
  {
  }

  lemma StartHoldsOn(c: ClientRuns.Client, e: ClientRuns.ClientEvent, g: u64)
    requires ClientModel.IsCurrent(c.state, ClientModel.Resolve, g)
    requires e.BeginSend? || e.BeginResolve? || e.BeginPreview? || e.BeginRefresh? || e.BeginPage?
    ensures ClientModel.IsCurrent(ClientRuns.Step(c, e).0.state, ClientModel.Resolve, g)
  {
    match e
    case BeginRefresh(view) => RefreshHoldsOn(c.state, view, g);
    case BeginPage(view, hasMore) => PageHoldsOn(c.state, view, hasMore, g);
    case BeginSend(workflow, n) => OtherStartHoldsOn(c.state, workflow, n, g);
    case BeginResolve(n) =>
    case BeginPreview(n) =>
  }

  lemma CancelHoldsOn(s: ClientModel.State, f: ClientModel.Family, g: u64)
    requires ClientModel.IsCurrent(s, ClientModel.Resolve, g) && ClientRuns.IsLoad(f)
    ensures ClientModel.IsCurrent(ClientModel.CancelRefresh(s).0, ClientModel.Resolve, g)
    ensures ClientModel.IsCurrent(ClientModel.CancelLoad(s, f, ClientRuns.ShownBy(f)).0, ClientModel.Resolve, g)
    ensures ClientModel.IsCurrent(ClientModel.CancelPreview(s).0, ClientModel.Resolve, g)
  {
  }

  lemma CancelSendHoldsOn(s: ClientModel.State, g: u64)
    requires ClientModel.IsCurrent(s, ClientModel.Resolve, g)
    ensures ClientModel.IsCurrent(ClientModel.CancelSend(s).0, ClientModel.Resolve, g)
  {
  }

  lemma ShutdownHoldsOn(s: ClientModel.State, channel: nat, g: u64)
    requires ClientModel.IsCurrent(s, ClientModel.Resolve, g)
    ensures HoldsOn(ClientModel.ShutdownTurn(s, channel).0, g)
  {
    ClientSafety.TakenDownShape(s.(closing := true));
  }

  lemma CallHoldsOn(c: ClientRuns.Client, e: ClientRuns.ClientEvent, g: u64)
    requires ClientModel.IsCurrent(c.state, ClientModel.Resolve, g)
    requires e.CancelsSend? || e.CancelsRefresh? || e.CancelsLoad? || e.CancelsPreview? || e.Waits? || e.ShutsDown?
    ensures HoldsOn(ClientRuns.Step(c, e).0.state, g)
  {
    if e.CancelsSend? {
      CancelSendHoldsOn(c.state, g);
    } else if e.ShutsDown? {
      ShutdownHoldsOn(c.state, c.channels, g);
    } else if e.CancelsRefresh? || e.CancelsPreview? || e.CancelsLoad? {
      CancelHoldsOn(c.state, if e.CancelsLoad? && ClientRuns.IsLoad(e.family) then e.family else ClientModel.Pagination, g);
    }
  }

  lemma StepHoldsOn(c: ClientRuns.Client, e: ClientRuns.ClientEvent, g: u64)
    requires ClientSafety.StateOk(c.state) && HoldsOn(c.state, g) && !EndsIt(e, g)
    ensures HoldsOn(ClientRuns.Step(c, e).0.state, g)
  {
    if c.state.shutdown {
      ClientListeners.StepFrozen(c, e);
    } else if e.Op? {
      BlockHoldsOn(c, e.key, e.block, g);
    } else if e.BeginSend? || e.BeginResolve? || e.BeginPreview? || e.BeginRefresh? || e.BeginPage? {
      StartHoldsOn(c, e, g);
    } else {
      CallHoldsOn(c, e, g);
    }
  }

  // ----- the invariant -----

  /** A recovery holds its slot until its last block, and then its call is over. */
  ghost predicate RecoveryOk(f: Full, g: u64)
    requires g in f.recoveries
  {
    var s, w, id := f.joint.client.state, f.joint.world, f.recoveries[g];
    && id < w.spawned && g <= ClientModel.Generation(s, ClientModel.Resolve)
    && (g in f.finished ==> CallOver(w, id))
    && (g !in f.finished ==> HoldsOn(s, g))
  }

  ghost predicate FullOk(f: Full) {
    JointOk(f.joint) && f.finished <= f.recoveries.Keys && forall g :: g in f.recoveries ==> RecoveryOk(f, g)
  }

  lemma PartsMatch(cfg: Config, e: JointEvent, g: u64)
    ensures EndsRecovery(e, g) <==> ClientPart(cfg, e) != [] && EndsIt(ClientPart(cfg, e)[0], g)
  {
  }

  lemma WorldPartKeeps(cfg: Config, w: World, events: seq<WorldEvent>, v: World, id: nat)
    requires WorldMoves(cfg, w, events, v) && id < w.spawned
    ensures id < v.spawned && (CallOver(w, id) ==> CallOver(v, id))
  {
    if events != [] && CallOver(w, id) {
      StepKeepsOver(cfg, w, events[0], id);
    }
  }

  lemma ClientPartKeeps(c: ClientRuns.Client, events: seq<ClientRuns.ClientEvent>, d: ClientRuns.Client, g: u64)
    requires ClientSafety.StateOk(c.state) && BlocksMove(c, events, d)
    ensures ClientModel.Generation(c.state, ClientModel.Resolve) <= ClientModel.Generation(d.state, ClientModel.Resolve)
    ensures HoldsOn(c.state, g) && (events == [] || !EndsIt(events[0], g)) ==> HoldsOn(d.state, g)
  {
    if events != [] {
      ClientTheorems.GenerationsGrow(c, events[0], ClientModel.Resolve);
      if HoldsOn(c.state, g) && !EndsIt(events[0], g) {
        StepHoldsOn(c, events[0], g);
      }
    }
  }

  lemma PlainKeepsOne(cfg: Config, f: Full, e: JointEvent, g: u64)
    requires FullOk(f) && FullStep(cfg, f, Plain(e)).Some? && g in f.recoveries
    ensures RecoveryOk(FullStep(cfg, f, Plain(e)).value, g)
  {
    var j, k := f.joint, JointStep(cfg, f.joint, e).value;
    assert RecoveryOk(f, g);
    StepProjects(cfg, j, e);
    PartsMatch(cfg, e, g);
    WorldPartKeeps(cfg, j.world, WorldPart(cfg, j, e), k.world, f.recoveries[g]);
    ClientPartKeeps(j.client, ClientPart(cfg, e), k.client, g);
  }

  lemma PlainKeeps(cfg: Config, f: Full, e: JointEvent)
    requires FullOk(f) && FullStep(cfg, f, Plain(e)).Some?
    ensures FullOk(FullStep(cfg, f, Plain(e)).value)
  {
    JointStepOk(cfg, f.joint, e);
    var next := FullStep(cfg, f, Plain(e)).value;
    forall g | g in next.recoveries ensures RecoveryOk(next, g) {
      PlainKeepsOne(cfg, f, e, g);
    }
  }

  /** What a start of a recovery does in the joint model. */
  function StartParts(f: Full, requests: nat): seq<JointEvent> {
    var begin := OnClient(ClientRuns.BeginResolve(requests));
    if BeginRecovery(f, requests).1.Started? then [begin, OnWorld(Spawn(Recover))] else [begin]
  }

  lemma BeginIsJoint(cfg: Config, j: Joint, requests: nat)
    ensures JointStep(cfg, j, OnClient(ClientRuns.BeginResolve(requests)))
         == Some(BlockStep(j, ClientRuns.BeginResolve(requests)))
  {
  }

  lemma SpawnIsJoint(cfg: Config, j: Joint)
    ensures JointStep(cfg, j, OnWorld(Spawn(Recover))) == Some(j.(world := Step(cfg, j.world, Spawn(Recover)).value))
  {
  }

  lemma StartedRecoveryHolds(c: ClientRuns.Client, requests: nat)
    ensures var (d, reply) := ClientRuns.Step(c, ClientRuns.BeginResolve(requests));
            reply.Started? ==>
              && reply.generation == ClientModel.Generation(d.state, ClientModel.Resolve)
              && ClientModel.Generation(c.state, ClientModel.Resolve) < reply.generation
              && ClientModel.IsCurrent(d.state, ClientModel.Resolve, reply.generation)
  {
  }

  lemma StartKeepsOne(cfg: Config, f: Full, requests: nat, g: u64)
    requires FullOk(f) && g in f.recoveries
    ensures var next := FullStep(cfg, f, RecoveryStarts(requests)).value;
            g in next.recoveries && RecoveryOk(next, g)
  {
    var e := ClientRuns.BeginResolve(requests);
    assert RecoveryOk(f, g);
    StartedRecoveryHolds(f.joint.client, requests);
    ClientPartKeeps(f.joint.client, [e], ClientRuns.Step(f.joint.client, e).0, g);
    SpawnKeeps(cfg, f.joint.world, Recover, f.recoveries[g]);
  }

  lemma StartKeepsJoint(cfg: Config, f: Full, requests: nat)
    requires FullOk(f)
    ensures JointOk(FullStep(cfg, f, RecoveryStarts(requests)).value.joint)
  {
    var e := ClientRuns.BeginResolve(requests);
    BlockKeeps(f.joint, e);
    var j := BlockStep(f.joint, e);
    SpawnIsJoint(cfg, j);
    WorldKeeps(cfg, j, Spawn(Recover));
  }

  lemma RecoveryStartKeeps(cfg: Config, f: Full, requests: nat)
    requires FullOk(f)
    ensures FullOk(FullStep(cfg, f, RecoveryStarts(requests)).value)
  {
    var next := FullStep(cfg, f, RecoveryStarts(requests)).value;
    StartKeepsJoint(cfg, f, requests);
    StartedRecoveryHolds(f.joint.client, requests);
    forall g | g in next.recoveries ensures RecoveryOk(next, g) {
      if g in f.recoveries {
        StartKeepsOne(cfg, f, requests, g);
      }
    }
  }

  lemma FullStepOk(cfg: Config, f: Full, e: FullEvent)
    requires FullOk(f) && FullStep(cfg, f, e).Some?
    ensures FullOk(FullStep(cfg, f, e).value)
  {
    match e
    case RecoveryStarts(requests) => RecoveryStartKeeps(cfg, f, requests);
    case Plain(event) => PlainKeeps(cfg, f, event);
  }

  lemma {:induction false} FullRunOk(cfg: Config, f: Full, events: seq<FullEvent>)
    requires FullOk(f) && FullRun(cfg, f, events).Some?
    ensures FullOk(FullRun(cfg, f, events).value)
    decreases |events|
  {
    if events != [] {
      FullStepOk(cfg, f, events[0]);
      FullRunOk(cfg, FullStep(cfg, f, events[0]).value, events[1..]);
    }
  }

  // ----- what holds -----

  ghost predicate FullReached(cfg: Config, f: Full) {
    exists snapshot, clock: nat, events :: FullRun(cfg, Full(Opening(snapshot, clock), map[], {}), events) == Some(f)
  }

  lemma FullReachedOk(cfg: Config, f: Full)
    requires FullReached(cfg, f)
    ensures FullOk(f)
  {
    var snapshot, clock: nat, events :| FullRun(cfg, Full(Opening(snapshot, clock), map[], {}), events) == Some(f);
    FullRunOk(cfg, Full(Opening(snapshot, clock), map[], {}), events);
  }

  /** Every such run is a run of the joint model without recoveries, whose theorems
      therefore hold here. */
  function Parts(f: Full, e: FullEvent): seq<JointEvent> {
    match e
    case RecoveryStarts(requests) => StartParts(f, requests)
    case Plain(event) => [event]
  }

  function AllParts(cfg: Config, f: Full, events: seq<FullEvent>): seq<JointEvent>
    decreases |events|
  {
    if events == [] || FullStep(cfg, f, events[0]).None? then []
    else Parts(f, events[0]) + AllParts(cfg, FullStep(cfg, f, events[0]).value, events[1..])
  }

  lemma {:induction false} JointConcat(cfg: Config, j: Joint, first: seq<JointEvent>, second: seq<JointEvent>)
    requires JointRun(cfg, j, first).Some?
    ensures JointRun(cfg, j, first + second) == JointRun(cfg, JointRun(cfg, j, first).value, second)
    decreases |first|
  {
    if first == [] {
      assert first + second == second;
    } else {
      assert (first + second)[1..] == first[1..] + second;
      JointConcat(cfg, JointStep(cfg, j, first[0]).value, first[1..], second);
    }
  }

  lemma RunsOne(cfg: Config, j: Joint, e: JointEvent)
    ensures JointRun(cfg, j, [e]) == JointStep(cfg, j, e)
  {
    var next := JointStep(cfg, j, e);
    assert [e][1..] == [];
    assert next.Some? ==> JointRun(cfg, next.value, []) == next;
  }

  lemma StepParts(cfg: Config, f: Full, e: FullEvent)
    requires FullStep(cfg, f, e).Some?
    ensures JointRun(cfg, f.joint, Parts(f, e)) == Some(FullStep(cfg, f, e).value.joint)
  {
    if e.Plain? {
      RunsOne(cfg, f.joint, e.event);
    } else {
      var begin, spawn := OnClient(ClientRuns.BeginResolve(e.requests)), OnWorld(Spawn(Recover));
      var j := BlockStep(f.joint, ClientRuns.BeginResolve(e.requests));
      BeginIsJoint(cfg, f.joint, e.requests);
      RunsOne(cfg, f.joint, begin);
      if BeginRecovery(f, e.requests).1.Started? {
        SpawnIsJoint(cfg, j);
        RunsOne(cfg, j, spawn);
        JointConcat(cfg, f.joint, [begin], [spawn]);
        assert [begin] + [spawn] == Parts(f, e);
      }
    }
  }

  lemma {:induction false} RecoveriesProject(cfg: Config, f: Full, events: seq<FullEvent>)
    requires FullRun(cfg, f, events).Some?
    ensures JointRun(cfg, f.joint, AllParts(cfg, f, events)) == Some(FullRun(cfg, f, events).value.joint)
    decreases |events|
  {
    if events != [] {
      var next := FullStep(cfg, f, events[0]).value;
      StepParts(cfg, f, events[0]);
      RecoveriesProject(cfg, next, events[1..]);
      JointConcat(cfg, f.joint, Parts(f, events[0]), AllParts(cfg, next, events[1..]));
    }
  }

  /** While a recovery of a client that was not shut down is under way, the client
      starts neither a send nor another recovery, and every send it ever started is
      over or was cancelled before its commit and never stores or hands out anything
      again: a recovery never works beside a send of its own client. */
  lemma RecoveryExcludesSends(cfg: Config, f: Full, g: u64, h: u64, events: seq<FullEvent>)
    requires FullReached(cfg, f) && !f.joint.client.state.shutdown
    requires g in f.recoveries && !CallOver(f.joint.world, f.recoveries[g])
    ensures forall call: Call, n | call.Send? ::
              ClientRuns.Step(f.joint.client, ClientRuns.BeginSend(CallerOf(cfg, call).workflow, n)).1.Denied?
    ensures forall n :: ClientRuns.Step(f.joint.client, ClientRuns.BeginResolve(n)).1.Denied?
    ensures h in f.joint.calls && FullRun(cfg, f, events).Some? ==>
              || CallOver(f.joint.world, f.joint.calls[h])
              || !Stirs(FullRun(cfg, f, events).value.joint.world, f.joint.calls[h])
  {
    FullReachedOk(cfg, f);
    assert RecoveryOk(f, g);
    assert ClientModel.IsCurrent(f.joint.client.state, ClientModel.Resolve, g);
    if h in f.joint.calls && FullRun(cfg, f, events).Some? {
      RecoveriesProject(cfg, f, events);
      assert SendOk(f.joint, h);
      assert !ClientModel.IsCurrent(f.joint.client.state, ClientModel.Send, h);
      if h !in f.joint.passed {
        GoneStaysQuiet(cfg, f.joint, h, AllParts(cfg, f, events));
      }
    }
  }

  /** Such a state is reached: a new client whose first call is a recovery. */
  lemma RecoveryIsReached(cfg: Config, snapshot: ClientModel.Snapshot, clock: nat) returns (f: Full)
    ensures FullReached(cfg, f) && !f.joint.client.state.shutdown
    ensures 1 in f.recoveries && !CallOver(f.joint.world, f.recoveries[1])
  {
    var start, e := Full(Opening(snapshot, clock), map[], {}), RecoveryStarts(5);
    StartedRecoveryHolds(start.joint.client, 5);
    f := FullStep(cfg, start, e).value;
    assert [e][1..] == [] && FullRun(cfg, f, []) == Some(f);
    assert FullRun(cfg, start, [e]) == Some(f);
  }
}
