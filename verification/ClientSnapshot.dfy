/** Where the published snapshot comes from, over every interleaving. */
module ClientSnapshot {
  import opened Basics
  import SendReducer
  import opened ClientModel
  import opened ClientRuns
  import opened ClientSafety
  import opened ClientMoves
  import opened ClientTheorems

  // ----- loaded data -----

  /** A current load delivers fresh data for the resource. */
  predicate Delivers(c: Client, e: ClientEvent, r: Resource) {
    && e.Op? && MayRun(c, e.key, e.block) && IsCurrent(c.state, e.key.family, e.key.generation)
    && (match e.block
        case PublishesComponent(component, value) => component == r && value.Fresh?
        case FinishesLoad(page) => DataOf(e.key.family) == r && page.Fresh?
        case _ => false)
  }

  function DeliveredData(e: ClientEvent): string
    requires e.Op?
  {
    match e.block
    case PublishesComponent(_, Fresh(data)) => data
    case FinishesLoad(Fresh(data)) => data
    case _ => ""
  }

  /** The data shown for a resource is what the last delivery brought. */
  ghost predicate ShowsAfter(c: Client, e: ClientEvent, d: Client, r: Resource) {
    if Delivers(c, e, r)
    then r in d.state.snapshot.data && d.state.snapshot.data[r] == DeliveredData(e)
    else (r in d.state.snapshot.data <==> r in c.state.snapshot.data)
         && (r in c.state.snapshot.data ==> d.state.snapshot.data[r] == c.state.snapshot.data[r])
  }

  lemma BeginSendKeepsData(s: State, workflow: SendReducer.Workflow, n: nat)
    ensures StartSend(s, workflow, n).0.snapshot.data == s.snapshot.data
  {
    if Running(s) && Send !in s.active && Resolve !in s.active && Bump(s, Send).Some? {
      var (reserved, ids) := Allocate(Bump(s, Send).value, n);
      if ids.Some? {
        var occupied := SetSend(Occupy(reserved, Send, []), ViewOf(workflow)).(
          commitStarted := false, workflow := Some(workflow));
        assert occupied.snapshot.data == s.snapshot.data;
        PublishServes(occupied, Started(Generation(occupied, Send), ids.value));
      }
    }
  }

  lemma BeginOtherKeepsData(s: State, n: nat)
    ensures StartResolve(s, n).0.snapshot == s.snapshot && StartPreview(s, n).0.snapshot == s.snapshot
  {
  }

  lemma BeginRefreshKeepsData(s: State, view: View)
    ensures StartRefresh(s, view).0.snapshot.data == s.snapshot.data
    ensures StartRefresh(s, view).0.snapshot.send == s.snapshot.send
  {
    var (reserved, ids) := Allocate(s, if view.Wallet? then 2 else 1);
    var f := view.RefreshFamily();
    if Running(s) && ids.Some? && Bump(reserved, f).Some? {
      var occupied := Vacate(Occupy(Bump(reserved, f).value, f, ids.value), view.PageFamily());
      var loading := SetResource(SetLoading(occupied, view), view.Page(), ResourceIdle);
      assert loading.snapshot.data == s.snapshot.data && loading.snapshot.send == s.snapshot.send;
      PublishServes(loading, Started(Generation(occupied, f), ids.value));
    }
  }

  lemma BeginPageKeepsData(s: State, view: View, hasMore: bool)
    ensures StartPage(s, view, hasMore).0.snapshot.data == s.snapshot.data
    ensures StartPage(s, view, hasMore).0.snapshot.send == s.snapshot.send
  {
  }

  lemma CancelKeepsData(s: State, f: Family, shown: Resource)
    ensures CancelLoad(s, f, shown).0.snapshot.data == s.snapshot.data
    ensures CancelLoad(s, f, shown).0.snapshot.send == s.snapshot.send
    ensures CancelPreview(s).0.snapshot == s.snapshot
  {
  }

  lemma CancelSendKeepsData(s: State)
    ensures CancelSend(s).0.snapshot.data == s.snapshot.data
  {
  }

  lemma CancelRefreshKeepsData(s: State)
    ensures CancelRefresh(s).0.snapshot.data == s.snapshot.data
    ensures CancelRefresh(s).0.snapshot.send == s.snapshot.send
  {
    var t := CancelLoading(CancelLoading(Vacate(s, Refresh), Account), Activity);
    assert t.snapshot.data == s.snapshot.data && t.snapshot.send == s.snapshot.send;
    PublishServes(t, Cancelling(RequestsOf(s, Refresh)));
  }

  lemma ShutdownKeepsData(s: State, channel: nat)
    ensures ShutdownTurn(s, channel).0.snapshot.data == s.snapshot.data
  {
    var closing := s.(closing := true);
    assert TakenDown(closing).snapshot.data == s.snapshot.data;
  }

  lemma SendBlockKeepsData(s: State, key: Key, b: Block)
    requires key.family == Send && Fits(Send, b)
    ensures RunBlock(s, key, b).0.snapshot.data == s.snapshot.data
  {
    if IsCurrent(s, Send, key.generation) {
      match b {
        case Publishes(workflow) => PublishServes(SetSend(s, ViewOf(workflow)).(workflow := Some(workflow)), Done);
        case PublishesPrior(view) => PublishServes(SetSend(s, view), Done);
        case Blocks(view) => PublishServes(SetSend(ReleaseSend(s), view).(workflow := None), Done);
        case Ends(phase, message) =>
          PublishServes(SetSend(ReleaseSend(s), s.snapshot.send.(phase := phase, error := Some(message))), Done);
        case Finishes(workflow) =>
          PublishServes(SetSend(ReleaseSend(s), ViewOf(workflow)).(workflow := Some(workflow)), Done);
        case _ =>
      }
    } else {
      StaleInert(s, key, b);
    }
  }

  lemma ResolveBlockKeepsData(s: State, key: Key, b: Block)
    requires (key.family == Resolve || key.family == Preview) && Fits(key.family, b)
    ensures RunBlock(s, key, b).0.snapshot.data == s.snapshot.data
  {
  }

  lemma AbsorbData(s: State, r: Resource, shown: Resource, loaded: Loaded)
    ensures Publish(Absorb(s, r, shown, loaded), Done).0.snapshot.data
         == if loaded.Fresh? then s.snapshot.data[r := loaded.data] else s.snapshot.data
    ensures Publish(Absorb(s, r, shown, loaded), Done).0.snapshot.send == s.snapshot.send
  {
    PublishServes(Absorb(s, r, shown, loaded), Done);
  }

  lemma LoadBlockData(s: State, key: Key, b: Block)
    requires key.family != Send && key.family != Resolve && key.family != Preview && Fits(key.family, b)
    ensures var t := RunBlock(s, key, b).0.snapshot;
            && t.send == s.snapshot.send
            && t.data == if !IsCurrent(s, key.family, key.generation) then s.snapshot.data
                         else match b
                           case PublishesComponent(r, Fresh(data)) => s.snapshot.data[r := data]
                           case FinishesLoad(Fresh(data)) => s.snapshot.data[DataOf(key.family) := data]
                           case _ => s.snapshot.data
  {
    var f := key.family;
    if b.PublishesComponent? {
      AbsorbData(s, b.component, b.component, if b.value.HostCancelled? then LoadFailed else b.value);
    } else if b.FinishesLoad? {
      AbsorbData(Vacate(s, f), DataOf(f), ShownBy(f), b.page);
    }
  }

  lemma OpShows(c: Client, key: Key, b: Block, r: Resource)
    requires MayRun(c, key, b)
    ensures ShowsAfter(c, Op(key, b), RunOp(c, key, b).0, r)
  {
    if key.family == Send {
      SendBlockKeepsData(c.state, key, b);
    } else if key.family == Resolve || key.family == Preview {
      ResolveBlockKeepsData(c.state, key, b);
    } else {
      LoadBlockData(c.state, key, b);
    }
  }

  /** Only an operation's block can deliver. */
  lemma OtherEventShows(c: Client, e: ClientEvent)
    requires !e.Op?
    ensures Step(c, e).0.state.snapshot.data == c.state.snapshot.data
  {
    var s := c.state;
    match e {
      case BeginRefresh(view) => BeginRefreshKeepsData(s, view);
      case BeginPage(view, hasMore) => BeginPageKeepsData(s, view, hasMore);
      case CancelsSend => CancelSendKeepsData(s);
      case CancelsRefresh => CancelRefreshKeepsData(s);
      case CancelsLoad(f) => CancelKeepsData(s, f, ShownBy(f));
      case CancelsPreview => CancelKeepsData(s, Pagination, Nfts);
      case Waits(after) =>
      case ShutsDown => ShutdownKeepsData(s, c.channels);
      case BeginSend(workflow, n) => BeginSendKeepsData(s, workflow, n);
      case BeginResolve(n) => BeginOtherKeepsData(s, n);
      case BeginPreview(n) => BeginOtherKeepsData(s, n);
    }
  }

  /** Only a current load with fresh data changes what is shown for a resource:
      failures, cancellations, late answers, sends, and shutdown keep it. */
  lemma StepShows(c: Client, e: ClientEvent, r: Resource)
    ensures ShowsAfter(c, e, Step(c, e).0, r)
  {
    if e.Op? {
      if MayRun(c, e.key, e.block) {
        OpShows(c, e.key, e.block, r);
      }
    } else {
      OtherEventShows(c, e);
    }
  }

  /** The last delivery for a resource in a run, if any. */
  ghost function LastDelivery(c: Client, events: seq<ClientEvent>, r: Resource): Option<string>
    decreases |events|
  {
    if events == [] then None
    else
      var later := LastDelivery(Step(c, events[0]).0, events[1..], r);
      if later.Some? then later
      else if Delivers(c, events[0], r) then Some(DeliveredData(events[0]))
      else None
  }

  /** Over every run, the data shown for a resource is the last one a current load
      delivered, or what was shown before if none did. */
  lemma {:induction false} RunShowsLastDelivery(c: Client, events: seq<ClientEvent>, r: Resource)
    ensures var before, after := c.state.snapshot.data, Run(c, events).state.snapshot.data;
            var last := LastDelivery(c, events, r);
            if last.Some? then r in after && after[r] == last.value
            else (r in after <==> r in before) && (r in before ==> after[r] == before[r])
    decreases |events|
  {
    if events != [] {
      StepShows(c, events[0], r);
      RunShowsLastDelivery(Step(c, events[0]).0, events[1..], r);
    }
  }

  // ----- the send shown -----

  /** The events that may change the send snapshot: starting a send, a block of the
      current send or resolution, cancelling before the commit, and shutdown. */
  predicate MayShowSend(c: Client, e: ClientEvent) {
    match e
    case BeginSend(_, _) => Running(c.state) && Send !in c.state.active && Resolve !in c.state.active
    case Op(key, b) => (key.family == Send || key.family == Resolve) && IsCurrent(c.state, key.family, key.generation)
    case CancelsSend => Send in c.state.active && !c.state.commitStarted
    case ShutsDown => Send in c.state.active && !c.state.commitStarted
    case _ => false
  }

  lemma ShutdownShowsSend(s: State, channel: nat)
    requires StateOk(s) && !(Send in s.active && !s.commitStarted)
    ensures ShutdownTurn(s, channel).0.snapshot.send == s.snapshot.send
  {
    var closing := s.(closing := true);
    if Send !in s.active {
      assert TakenDown(closing).snapshot.send == s.snapshot.send;
    }
  }

  lemma OpShowsSend(s: State, key: Key, b: Block)
    requires Fits(key.family, b)
    requires !((key.family == Send || key.family == Resolve) && IsCurrent(s, key.family, key.generation))
    ensures RunBlock(s, key, b).0.snapshot.send == s.snapshot.send
  {
    if !IsCurrent(s, key.family, key.generation) {
      StaleInert(s, key, b);
    } else if key.family != Preview {
      LoadBlockData(s, key, b);
    }
  }

  lemma StepShowsSend(c: Client, e: ClientEvent)
    requires StateOk(c.state) && !MayShowSend(c, e)
    ensures Step(c, e).0.state.snapshot.send == c.state.snapshot.send
  {
    var s := c.state;
    match e {
      case BeginSend(_, _) =>
      case BeginResolve(n) => BeginOtherKeepsData(s, n);
      case BeginPreview(n) => BeginOtherKeepsData(s, n);
      case BeginRefresh(view) => BeginRefreshKeepsData(s, view);
      case BeginPage(view, hasMore) => BeginPageKeepsData(s, view, hasMore);
      case Op(key, b) =>
        if MayRun(c, key, b) { OpShowsSend(s, key, b); }
      case CancelsSend =>
      case CancelsRefresh => CancelRefreshKeepsData(s);
      case CancelsLoad(f) => CancelKeepsData(s, f, ShownBy(f));
      case CancelsPreview =>
      case Waits(_) =>
      case ShutsDown => ShutdownShowsSend(s, c.channels);
    }
  }

  /** A block of the committed send itself. */
  predicate OwnBlock(e: ClientEvent, g: u64) {
    e.Op? && e.key == Key(Send, g)
  }

  /** Past the commit boundary only the send's own blocks change what is shown for
      it, however many other calls run in between. */
  lemma {:induction false} CommittedSendShown(c: Client, events: seq<ClientEvent>, g: u64)
    requires StateOk(c.state) && Committed(c.state, g)
    requires forall e :: e in events ==> !OwnBlock(e, g)
    ensures Run(c, events).state.snapshot.send == c.state.snapshot.send && Committed(Run(c, events).state, g)
    decreases |events|
  {
    if events != [] {
      var e := events[0];
      assert e in events && !OwnBlock(e, g);
      assert !MayShowSend(c, e);
      StepShowsSend(c, e);
      StepKeepsCommit(c, e, g);
      StepStateOk(c, e);
      CommittedSendShown(Step(c, e).0, events[1..], g);
    }
  }
}
