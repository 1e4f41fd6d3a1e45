/** Change listeners and shutdown over every interleaving. */
module ClientListeners {
  import opened Basics
  import opened ClientModel
  import opened ClientRuns
  import opened ClientSafety
  import opened ClientMoves
  import opened ClientTheorems
  import opened ClientRequests

  /** A channel waits, was signalled by a revision above the one it waits for, or
      was released by shutdown below it, and exactly one of the three. */
  ghost predicate Listens(c: Client, channel: nat) {
    channel in c.registered ==>
      var after := c.registered[channel];
      && channel < c.channels
      && (channel in c.state.woken <==> c.state.snapshot.revision > after)
      && (channel in c.state.dropped ==> c.state.shutdown && channel !in c.state.woken)
      && (channel !in c.state.woken && channel !in c.state.dropped ==> Waiter(after, channel) in c.state.waiters)
  }

  ghost predicate ListenersOk(c: Client) {
    && (forall channel :: channel in c.registered ==> Listens(c, channel))
    && (forall w :: w in c.state.waiters ==>
          w.channel in c.registered && c.registered[w.channel] == w.after
          && w.channel !in c.state.woken && w.channel !in c.state.dropped)
    && (forall channel :: channel in c.state.woken || channel in c.state.dropped ==> channel in c.registered)
  }

  lemma ServesListeners(c: Client, d: Client)
    requires StateOk(c.state) && !c.state.shutdown && ListenersOk(c) && Serves(c.state, d.state)
    requires d.registered == c.registered && d.channels == c.channels
    ensures ListenersOk(d)
  {
    if Announces(c.state, d.state) {
      forall channel | channel in d.registered ensures Listens(d, channel) {
        assert Listens(c, channel);
        var w := Waiter(c.registered[channel], channel);
        assert w in c.state.waiters && d.state.snapshot.revision > w.after ==> w.channel in d.state.woken;
      }
    } else {
      forall channel | channel in d.registered ensures Listens(d, channel) {
        assert Listens(c, channel);
      }
    }
  }

  // ----- frozen after shutdown -----

  lemma CancelsFrozen(s: State, f: Family)
    requires StateOk(s) && s.shutdown && IsLoad(f)
    ensures CancelSend(s).0 == s && CancelRefresh(s).0 == s && CancelLoad(s, f, ShownBy(f)).0 == s
    ensures CancelPreview(s).0 == s
  {
    assert Vacate(s, Refresh).active == s.active;
  }

  /** Shutdown is final: whatever is called afterwards changes no state. */
  lemma StepFrozen(c: Client, e: ClientEvent)
    requires StateOk(c.state) && c.state.shutdown
    ensures Step(c, e).0.state == c.state
    ensures Step(c, e).0.registered == c.registered && c.channels <= Step(c, e).0.channels
  {
    match e {
      case Op(key, b) => if MayRun(c, key, b) { StaleInert(c.state, key, b); }
      case CancelsSend => CancelsFrozen(c.state, Pagination);
      case CancelsRefresh => CancelsFrozen(c.state, Pagination);
      case CancelsLoad(f) => if IsLoad(f) { CancelsFrozen(c.state, f); }
      case CancelsPreview => CancelsFrozen(c.state, Pagination);
      case _ =>
    }
  }

  /** After shutdown returned, no later call or late completion changes anything. */
  lemma {:induction false} ShutdownIsFinal(c: Client, events: seq<ClientEvent>)
    requires StateOk(c.state) && c.state.shutdown
    ensures Run(c, events).state == c.state && c.state.active == map[] && c.state.waiters == []
    decreases |events|
  {
    if events != [] {
      StepFrozen(c, events[0]);
      ShutdownIsFinal(Step(c, events[0]).0, events[1..]);
    }
  }

  // ----- one event -----

  lemma BeginServes(c: Client, e: ClientEvent)
    requires e.BeginSend? || e.BeginResolve? || e.BeginPreview? || e.BeginRefresh? || e.BeginPage?
    ensures Serves(c.state, Step(c, e).0.state)
  {
    var s := c.state;
    match e {
      case BeginSend(workflow, n) => BeginSendMove(s, workflow, n);
      case BeginResolve(n) => BeginResolveMove(s, n);
      case BeginPreview(n) => BeginPreviewMove(s, n);
      case BeginRefresh(view) => BeginRefreshMove(s, view);
      case BeginPage(view, hasMore) => BeginPageMove(s, view, hasMore);
    }
  }

  lemma BlockServes(s: State, key: Key, b: Block)
    requires Fits(key.family, b)
    ensures Serves(s, RunBlock(s, key, b).0)
  {
    if b.Tracks? || b.Untracks? {
    } else if key.family == Send {
      SendBlockMove(s, key, b);
    } else if key.family == Resolve {
      ResolveBlockMove(s, key, b);
    } else {
      LoadBlockMove(s, key, b);
    }
  }

  lemma CancelServes(c: Client, e: ClientEvent)
    requires e.CancelsSend? || e.CancelsRefresh? || e.CancelsLoad? || e.CancelsPreview?
    ensures Serves(c.state, Step(c, e).0.state)
  {
    var s := c.state;
    match e {
      case CancelsSend => CancelSendMove(s);
      case CancelsRefresh => CancelRefreshMove(s);
      case CancelsLoad(f) => CancelLoadMove(s, f, ShownBy(f));
      case CancelsPreview => CancelPreviewMove(s);
    }
  }

  /** Every event but a wait or a shutdown turn serves listeners by at most one revision. */
  lemma StepServes(c: Client, e: ClientEvent)
    requires !e.Waits? && !e.ShutsDown?
    ensures Serves(c.state, Step(c, e).0.state)
    ensures Step(c, e).0.registered == c.registered && Step(c, e).0.channels == c.channels
  {
    match e {
      case Op(key, b) => if MayRun(c, key, b) { BlockServes(c.state, key, b); }
      case CancelsSend => CancelServes(c, e);
      case CancelsRefresh => CancelServes(c, e);
      case CancelsLoad(f) => CancelServes(c, e);
      case CancelsPreview => CancelServes(c, e);
      case _ => BeginServes(c, e);
    }
  }

  /** A new listener on a fresh channel, for a revision not yet published. */
  lemma RegisterListeners(c: Client, d: Client, after: u64)
    requires ListenersOk(c) && after >= c.state.snapshot.revision
    requires d.registered == c.registered[c.channels := after] && d.channels == c.channels + 1
    requires d.state.waiters == c.state.waiters + [Waiter(after, c.channels)] && d.state.woken == c.state.woken
    requires d.state.dropped == c.state.dropped && d.state.snapshot == c.state.snapshot
    requires d.state.shutdown == c.state.shutdown
    ensures ListenersOk(d)
  {
    forall channel | channel in c.registered ensures channel < c.channels {
      assert Listens(c, channel);
    }
    assert c.channels !in c.registered;
    forall channel | channel in d.registered ensures Listens(d, channel) {
      assert channel in c.registered ==> Listens(c, channel);
      assert Waiter(after, c.channels) in d.state.waiters;
      assert forall w :: w in c.state.waiters ==> w in d.state.waiters;
    }
  }

  lemma WaitListeners(c: Client, after: u64)
    requires ListenersOk(c)
    ensures ListenersOk(Step(c, Waits(after)).0)
  {
    var d := Step(c, Waits(after)).0;
    if d.state != c.state {
      RegisterListeners(c, d, after);
    } else {
      forall channel | channel in d.registered ensures Listens(d, channel) {
        assert Listens(c, channel);
      }
    }
  }

  /** Releasing the listeners that are still waiting. */
  lemma DrainListeners(c: Client, d: Client)
    requires ListenersOk(c) && !c.state.shutdown && d.registered == c.registered && c.channels <= d.channels
    requires d.state.waiters == [] && d.state.woken == c.state.woken && d.state.shutdown
    requires d.state.dropped == c.state.dropped + set w | w in c.state.waiters :: w.channel
    requires d.state.snapshot.revision == c.state.snapshot.revision
    ensures ListenersOk(d)
  {
    forall channel | channel in d.registered ensures Listens(d, channel) {
      assert Listens(c, channel);
      var w := Waiter(c.registered[channel], channel);
      assert w in c.state.waiters ==> w.channel in d.state.dropped;
    }
  }

  lemma FinishListeners(c: Client)
    requires StateOk(c.state) && ListenersOk(c) && !c.state.shutdown && !(Send in c.state.active && c.state.commitStarted)
    ensures ListenersOk(Step(c, ShutsDown).0)
  {
    var closing := c.state.(closing := true);
    var d := Step(c, ShutsDown).0;
    TakenDownShape(closing);
    if closing.active == map[] {
      DrainListeners(c, d);
    } else if closing.snapshot.revision == U64_MAX {
      forall channel | channel in d.registered ensures Listens(d, channel) {
        assert Listens(c, channel);
      }
    } else {
      var quiet := c.(state := TakenDown(closing).(closing := c.state.closing));
      assert ListenersOk(quiet) by { ServesListeners(c, quiet); }
      AnnouncedDrain(quiet, d);
    }
  }

  /** One last revision, then the remaining listeners are released. */
  lemma AnnouncedDrain(quiet: Client, d: Client)
    requires StateOk(quiet.state) && ListenersOk(quiet) && !quiet.state.shutdown
    requires quiet.state.snapshot.revision < U64_MAX
    requires d.registered == quiet.registered && quiet.channels <= d.channels
    requires d.state == Drain(NextRevision(quiet.state).0).(closing := d.state.closing)
    ensures ListenersOk(d)
  {
    var announced := quiet.(state := NextRevision(quiet.state).0);
    assert ListenersOk(announced) by { ServesListeners(quiet, announced); }
    DrainListeners(announced, d);
  }

  lemma StepListeners(c: Client, e: ClientEvent)
    requires StateOk(c.state) && ListenersOk(c)
    ensures ListenersOk(Step(c, e).0)
  {
    var d := Step(c, e).0;
    if c.state.shutdown {
      StepFrozen(c, e);
      forall channel | channel in d.registered ensures Listens(d, channel) {
        assert Listens(c, channel);
      }
    } else if e.Waits? {
      WaitListeners(c, e.after);
    } else if e.ShutsDown? {
      if Send in c.state.active && c.state.commitStarted {
        RegisterListeners(c, d, c.state.snapshot.revision);
      } else {
        FinishListeners(c);
      }
    } else {
      StepServes(c, e);
      ServesListeners(c, d);
    }
  }

  lemma {:induction false} RunListeners(c: Client, events: seq<ClientEvent>)
    requires StateOk(c.state) && ListenersOk(c)
    ensures ListenersOk(Run(c, events))
    decreases |events|
  {
    if events != [] {
      StepListeners(c, events[0]);
      StepStateOk(c, events[0]);
      RunListeners(Step(c, events[0]).0, events[1..]);
    }
  }

  /** No wake-up is lost and none is spurious: at every moment a listener for a
      revision above `after` has been signalled exactly when such a revision was
      published, and one that was not signalled still waits or was released by
      shutdown. */
  lemma NoLostWakeup(snapshot: Snapshot, events: seq<ClientEvent>, channel: nat)
    requires channel in Run(NewClient(snapshot), events).registered
    ensures var c := Run(NewClient(snapshot), events);
            var after := c.registered[channel];
            && (channel in c.state.woken <==> c.state.snapshot.revision > after)
            && (channel in c.state.dropped ==> c.state.shutdown)
            && (!c.state.shutdown && channel !in c.state.woken ==> Waiter(after, channel) in c.state.waiters)
            && (c.state.shutdown ==> channel in c.state.woken || channel in c.state.dropped)
  {
    RunListeners(NewClient(snapshot), events);
    RunStateOk(NewClient(snapshot), events);
    assert Listens(Run(NewClient(snapshot), events), channel);
  }

  // ----- shutdown waits for a committed send -----

  /** A committed send that lets go of its slot publishes a revision. */
  lemma EndingPublishes(c: Client, e: ClientEvent, g: u64)
    requires StateOk(c.state) && Committed(c.state, g) && !Committed(Step(c, e).0.state, g)
    requires c.state.snapshot.revision < U64_MAX
    ensures Step(c, e).0.state.snapshot.revision > c.state.snapshot.revision
  {
    if !EndsItself(e, g) {
      StepKeepsCommit(c, e, g);
    } else {
      assert MayRun(c, e.key, e.block);
      LastBlockPublishes(c.state, e.key, e.block);
    }
  }

  lemma LastBlockPublishes(s: State, key: Key, b: Block)
    requires IsCurrent(s, Send, key.generation) && key.family == Send && (b.Blocks? || b.Ends? || b.Finishes?)
    requires s.snapshot.revision < U64_MAX
    ensures RunBlock(s, key, b).0.snapshot.revision as int == s.snapshot.revision + 1
  {
  }

  /** While the committed send holds its slot shutdown only waits, and once the
      send lets go every shutdown that waited has been signalled. */
  lemma {:induction false} ShutdownWakes(c: Client, events: seq<ClientEvent>, g: u64)
    requires StateOk(c.state) && ListenersOk(c) && Committed(c.state, g)
    requires Run(Step(c, ShutsDown).0, events).state.snapshot.revision < U64_MAX
    requires !Committed(Run(Step(c, ShutsDown).0, events).state, g)
    ensures c.channels in Run(Step(c, ShutsDown).0, events).state.woken
  {
    var first := Step(c, ShutsDown).0;
    StepListeners(c, ShutsDown);
    StepStateOk(c, ShutsDown);
    RunListeners(first, events);
    LettingGoMovesOn(first, events, g);
    RunKeepsRegistered(first, events, c.channels);
    assert Listens(Run(first, events), c.channels);
  }

  lemma {:induction false} RunKeepsRegistered(c: Client, events: seq<ClientEvent>, channel: nat)
    requires channel in c.registered && channel < c.channels
    ensures channel in Run(c, events).registered && Run(c, events).registered[channel] == c.registered[channel]
    decreases |events|
  {
    if events != [] {
      var e := events[0];
      if !e.Waits? && !e.ShutsDown? { StepServes(c, e); }
      RunKeepsRegistered(Step(c, e).0, events[1..], channel);
    }
  }

  lemma {:induction false} RunAfter(c: Client, events: seq<ClientEvent>)
    ensures c.state.snapshot.revision <= Run(c, events).state.snapshot.revision
    decreases |events|
  {
    if events != [] {
      StepAfter(c, events[0]);
      RunAfter(Step(c, events[0]).0, events[1..]);
    }
  }

  lemma {:induction false} LettingGoMovesOn(c: Client, events: seq<ClientEvent>, g: u64)
    requires StateOk(c.state) && Committed(c.state, g) && !Committed(Run(c, events).state, g)
    requires Run(c, events).state.snapshot.revision < U64_MAX
    ensures Run(c, events).state.snapshot.revision > c.state.snapshot.revision
    decreases |events|
  {
    if events != [] {
      var next := Step(c, events[0]).0;
      RunAfter(c, events);
      RunAfter(next, events[1..]);
      StepAfter(c, events[0]);
      if Committed(next.state, g) {
        StepStateOk(c, events[0]);
        LettingGoMovesOn(next, events[1..], g);
      } else {
        EndingPublishes(c, events[0], g);
      }
    }
  }
}
