/** What every interleaving keeps on one wallet client. */
module ClientSafety {
  import opened Basics
  import SendReducer
  import opened ClientModel
  import opened ClientRuns

  /** Send and standalone resolution exclude each other, every active operation
      is the newest of its family, the commit flag belongs to an active send, a
      shut-down client is empty, and every listener waits for a revision that
      has not been published. */
  ghost predicate StateOk(s: State) {
    && (forall f :: f in s.active ==> s.active[f].generation == Generation(s, f))
    && !(Send in s.active && Resolve in s.active)
    && (s.commitStarted ==> Send in s.active)
    && (s.shutdown ==> s.closing && s.active == map[] && s.waiters == [])
    && (forall w :: w in s.waiters ==> w.after >= s.snapshot.revision)
  }

  /** A block that only republishes the snapshot keeps the state in order. */
  lemma PublishOk(s: State, reply: Reply)
    requires StateOk(s)
    ensures StateOk(Publish(s, reply).0)
    ensures Publish(s, reply).0 == s.(snapshot := Publish(s, reply).0.snapshot, waiters := Publish(s, reply).0.waiters,
                                      woken := Publish(s, reply).0.woken)
  {
  }

  lemma StartOk(s: State, f: Family, n: nat)
    requires StateOk(s) && Bump(s, f).Some? && f !in s.active
    ensures StateOk(Allocate(Bump(s, f).value, n).0)
  {
  }

  lemma StartSendOk(s: State, workflow: SendReducer.Workflow, n: nat)
    requires StateOk(s)
    ensures StateOk(StartSend(s, workflow, n).0)
  {
    if Running(s) && Send !in s.active && Resolve !in s.active && Bump(s, Send).Some? {
      StartOk(s, Send, n);
      var (reserved, ids) := Allocate(Bump(s, Send).value, n);
      if ids.Some? {
        var occupied := SetSend(Occupy(reserved, Send, []), ViewOf(workflow)).(
          commitStarted := false, workflow := Some(workflow));
        PublishOk(occupied, Started(Generation(occupied, Send), ids.value));
      }
    }
  }

  lemma StartOtherOk(s: State, n: nat)
    requires StateOk(s)
    ensures StateOk(StartResolve(s, n).0) && StateOk(StartPreview(s, n).0)
  {
  }

  /** Changing what is shown, short of the revision, keeps the state in order. */
  lemma ShownOk(s: State, t: State)
    requires StateOk(s) && t == s.(snapshot := t.snapshot) && t.snapshot.revision == s.snapshot.revision
    ensures StateOk(t)
  {
  }

  lemma VacateOk(s: State, f: Family)
    requires StateOk(s) && f != Send
    ensures StateOk(Vacate(s, f))
  {
  }

  lemma ReplaceOk(s: State, f: Family, ids: seq<u64>)
    requires StateOk(s) && !s.shutdown && f != Send && f != Resolve && Bump(s, f).Some?
    ensures StateOk(Occupy(Bump(s, f).value, f, ids))
  {
  }

  lemma RefreshSlotOk(s: State, view: View, ids: seq<u64>)
    requires StateOk(s) && !s.shutdown && Bump(s, view.RefreshFamily()).Some?
    ensures var f := view.RefreshFamily();
            StateOk(Vacate(Occupy(Bump(s, f).value, f, ids), view.PageFamily()))
  {
    var f := view.RefreshFamily();
    ReplaceOk(s, f, ids);
    VacateOk(Occupy(Bump(s, f).value, f, ids), view.PageFamily());
  }

  lemma RefreshShownOk(s: State, view: View, reply: Reply)
    requires StateOk(s)
    ensures StateOk(Publish(SetResource(SetLoading(s, view), view.Page(), ResourceIdle), reply).0)
  {
    var loading := SetResource(SetLoading(s, view), view.Page(), ResourceIdle);
    ShownOk(s, loading);
    PublishOk(loading, reply);
  }

  lemma StartRefreshOk(s: State, view: View)
    requires StateOk(s)
    ensures StateOk(StartRefresh(s, view).0)
  {
    var (reserved, ids) := Allocate(s, if view.Wallet? then 2 else 1);
    var f := view.RefreshFamily();
    if Running(s) && ids.Some? && Bump(reserved, f).Some? {
      RefreshSlotOk(reserved, view, ids.value);
      var occupied := Vacate(Occupy(Bump(reserved, f).value, f, ids.value), view.PageFamily());
      RefreshShownOk(occupied, view, Started(Generation(occupied, f), ids.value));
    }
  }

  lemma StartPageOk(s: State, view: View, hasMore: bool)
    requires StateOk(s)
    ensures StateOk(StartPage(s, view, hasMore).0)
  {
    var (reserved, ids) := Allocate(s, 1);
    var f := view.PageFamily();
    if Running(s) && ids.Some? && Bump(reserved, f).Some? {
      var occupied := Occupy(Bump(reserved, f).value, f, ids.value);
      ReplaceOk(reserved, f, ids.value);
      var loading := SetResource(occupied, view.Page(), ResourceLoading);
      ShownOk(occupied, loading);
      PublishOk(loading, Started(Generation(occupied, f), ids.value));
    }
  }

  lemma ReleaseSendOk(s: State, t: State)
    requires StateOk(s) && t == ReleaseSend(s).(snapshot := t.snapshot, workflow := t.workflow)
    requires t.snapshot.revision == s.snapshot.revision
    ensures StateOk(t)
  {
  }

  /** The blocks after which a send holds no slot. */
  lemma SendEndOk(s: State, key: Key, b: Block)
    requires StateOk(s) && key.family == Send && (b.Blocks? || b.Ends? || b.Finishes?)
    ensures StateOk(RunBlock(s, key, b).0)
  {
    if IsCurrent(s, Send, key.generation) {
      var t := match b
        case Blocks(view) => SetSend(ReleaseSend(s), view).(workflow := None)
        case Ends(phase, message) =>
          SetSend(ReleaseSend(s), s.snapshot.send.(phase := phase, error := Some(message)))
        case Finishes(workflow) => SetSend(ReleaseSend(s), ViewOf(workflow)).(workflow := Some(workflow));
      ReleaseSendOk(s, t);
      PublishOk(t, Done);
    }
  }

  /** The blocks by which a send shows its progress. */
  lemma SendShowOk(s: State, key: Key, b: Block)
    requires StateOk(s) && key.family == Send && (b.Publishes? || b.PublishesPrior?)
    ensures StateOk(RunBlock(s, key, b).0)
  {
    var t := if b.Publishes? then SetSend(s, ViewOf(b.workflow)).(workflow := Some(b.workflow)) else SetSend(s, b.prior);
    PublishOk(t, Done);
  }

  /** The blocks that publish nothing. */
  lemma SendSilentOk(s: State, key: Key, b: Block)
    requires StateOk(s) && key.family == Send && (b.Checks? || b.Commits? || b.Tracks? || b.Untracks?)
    ensures StateOk(RunBlock(s, key, b).0)
  {
  }

  lemma SendBlockOk(s: State, key: Key, b: Block)
    requires StateOk(s) && key.family == Send && Fits(Send, b)
    ensures StateOk(RunBlock(s, key, b).0)
  {
    if b.Publishes? || b.PublishesPrior? {
      SendShowOk(s, key, b);
    } else if b.Blocks? || b.Ends? || b.Finishes? {
      SendEndOk(s, key, b);
    } else {
      SendSilentOk(s, key, b);
    }
  }

  lemma CompleteResolveOk(s: State, g: u64, view: Option<SendView>)
    requires StateOk(s)
    ensures StateOk(CompleteResolve(s, g, view).0)
  {
    var left := Vacate(s, Resolve);
    VacateOk(s, Resolve);
    if view.Some? {
      ShownOk(left, SetSend(left, view.value));
      PublishOk(SetSend(left, view.value), Done);
    }
  }

  lemma ResolveBlockOk(s: State, key: Key, b: Block)
    requires StateOk(s) && key.family == Resolve && Fits(Resolve, b)
    ensures StateOk(RunBlock(s, key, b).0)
  {
    if b.Completes? {
      CompleteResolveOk(s, key.generation, b.resolved);
    } else if b.Discards? {
      VacateOk(s, Resolve);
    }
  }

  lemma AbsorbShape(s: State, r: Resource, shown: Resource, loaded: Loaded)
    ensures OnlyShown(s, Absorb(s, r, shown, loaded))
  {
  }

  lemma PreviewBlockOk(s: State, key: Key, b: Block)
    requires StateOk(s) && key.family == Preview && Fits(Preview, b)
    ensures StateOk(RunBlock(s, key, b).0)
  {
    VacateOk(s, Preview);
  }

  lemma RefreshBlockOk(s: State, key: Key, b: Block)
    requires StateOk(s) && key.family == Refresh && Fits(Refresh, b)
    ensures StateOk(RunBlock(s, key, b).0)
  {
    VacateOk(s, Refresh);
    if b.PublishesComponent? {
      var loaded := if b.value.HostCancelled? then LoadFailed else b.value;
      AbsorbShape(s, b.component, b.component, loaded);
      ShownOk(s, Absorb(s, b.component, b.component, loaded));
      PublishOk(Absorb(s, b.component, b.component, loaded), Done);
    }
  }

  lemma FinishLoadOk(s: State, f: Family, g: u64, r: Resource, shown: Resource, loaded: Loaded)
    requires StateOk(s) && f != Send
    ensures StateOk(FinishLoad(s, f, g, r, shown, loaded).0)
  {
    VacateOk(s, f);
    AbsorbShape(Vacate(s, f), r, shown, loaded);
    ShownOk(Vacate(s, f), Absorb(Vacate(s, f), r, shown, loaded));
    PublishOk(Absorb(Vacate(s, f), r, shown, loaded), Done);
  }

  lemma CancelSendOk(s: State)
    requires StateOk(s)
    ensures StateOk(CancelSend(s).0)
  {
    if Send in s.active && !s.commitStarted {
      var t := CancelWorkflow(SetSend(ReleaseSend(s), CancelledView(s)));
      ReleaseSendOk(s, t);
      PublishOk(t, Cancelling(s.active[Send].ids));
    }
  }

  lemma CancelRefreshOk(s: State)
    requires StateOk(s)
    ensures StateOk(CancelRefresh(s).0)
  {
    VacateOk(s, Refresh);
    var t := CancelLoading(CancelLoading(Vacate(s, Refresh), Account), Activity);
    ShownOk(Vacate(s, Refresh), t);
    PublishOk(t, Cancelling(RequestsOf(s, Refresh)));
  }

  lemma CancelLoadOk(s: State, f: Family)
    requires StateOk(s) && IsLoad(f)
    ensures StateOk(CancelLoad(s, f, ShownBy(f)).0) && StateOk(CancelPreview(s).0)
  {
    VacateOk(s, f);
    VacateOk(s, Preview);
    var t := SetResource(Vacate(s, f), ShownBy(f), ResourceIdle);
    ShownOk(Vacate(s, f), t);
    PublishOk(t, Cancelling(RequestsOf(s, f)));
  }

  lemma WaitOk(s: State, after: u64, channel: nat)
    requires StateOk(s)
    ensures StateOk(Wait(s, after, channel).0)
  {
  }

  /** Only what is shown changes, and not the revision. */
  predicate OnlyShown(s: State, t: State) {
    t == s.(snapshot := t.snapshot) && t.snapshot.revision == s.snapshot.revision
  }

  /** What taking every operation down may change. */
  lemma TakenDownShape(s: State)
    ensures TakenDown(s) == s.(snapshot := TakenDown(s).snapshot, workflow := TakenDown(s).workflow,
                               active := map[], commitStarted := false)
    ensures TakenDown(s).snapshot.revision == s.snapshot.revision
    ensures s.active == map[] ==> TakenDown(s).snapshot == s.snapshot
  {
  }

  lemma ShutdownOk(s: State, channel: nat)
    requires StateOk(s)
    ensures StateOk(ShutdownTurn(s, channel).0)
  {
    TakenDownShape(s.(closing := true));
  }

  lemma BlockOk(s: State, key: Key, b: Block)
    requires StateOk(s) && Fits(key.family, b)
    ensures StateOk(RunBlock(s, key, b).0)
  {
    if key.family == Send {
      SendBlockOk(s, key, b);
    } else if key.family == Resolve {
      ResolveBlockOk(s, key, b);
    } else if key.family == Preview {
      PreviewBlockOk(s, key, b);
    } else if key.family == Refresh {
      RefreshBlockOk(s, key, b);
    } else {
      FinishLoadOk(s, key.family, key.generation, DataOf(key.family), ShownBy(key.family), b.page);
    }
  }

  lemma OpOk(c: Client, key: Key, b: Block)
    requires StateOk(c.state)
    ensures StateOk(Step(c, Op(key, b)).0.state)
  {
    if MayRun(c, key, b) {
      BlockOk(c.state, key, b);
    }
  }

  lemma StartsOk(c: Client, e: ClientEvent)
    requires StateOk(c.state) && (e.BeginSend? || e.BeginResolve? || e.BeginPreview? || e.BeginRefresh? || e.BeginPage?)
    ensures StateOk(Step(c, e).0.state)
  {
    var s := c.state;
    if e.BeginSend? {
      StartSendOk(s, e.workflow, e.requests);
    } else if e.BeginRefresh? {
      StartRefreshOk(s, e.view);
    } else if e.BeginPage? {
      StartPageOk(s, e.view, e.hasMore);
    } else {
      StartOtherOk(s, e.requests);
    }
  }

  lemma CallsOk(c: Client, e: ClientEvent)
    requires StateOk(c.state)
    requires e.CancelsSend? || e.CancelsRefresh? || e.CancelsLoad? || e.CancelsPreview? || e.Waits? || e.ShutsDown?
    ensures StateOk(Step(c, e).0.state)
  {
    var s := c.state;
    if e.CancelsSend? {
      CancelSendOk(s);
    } else if e.CancelsRefresh? {
      CancelRefreshOk(s);
    } else if e.CancelsLoad? || e.CancelsPreview? {
      CancelLoadOk(s, if e.CancelsLoad? && IsLoad(e.family) then e.family else Pagination);
    } else if e.Waits? {
      WaitOk(s, e.after, c.channels);
    } else {
      ShutdownOk(s, c.channels);
    }
  }

  /** One event, any caller: the state stays in order. */
  lemma StepStateOk(c: Client, e: ClientEvent)
    requires StateOk(c.state)
    ensures StateOk(Step(c, e).0.state)
  {
    if e.Op? {
      OpOk(c, e.key, e.block);
    } else if e.BeginSend? || e.BeginResolve? || e.BeginPreview? || e.BeginRefresh? || e.BeginPage? {
      StartsOk(c, e);
    } else {
      CallsOk(c, e);
    }
  }
}
