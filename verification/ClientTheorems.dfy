/** Guarantees over every interleaving of calls on one wallet client. */
module ClientTheorems {
  import opened Basics
  import opened ClientModel
  import opened ClientRuns
  import opened ClientSafety
  import opened ClientMoves

  // ----- stale operations are inert -----

  /** A superseded, cancelled, or finished operation changes nothing any more. */
  lemma StaleInert(s: State, key: Key, b: Block)
    requires !IsCurrent(s, key.family, key.generation) && Fits(key.family, b)
    ensures RunBlock(s, key, b).0 == s
  {
  }

  /** An operation that lost its slot cannot get it back in one step. */
  lemma StepStaysGone(c: Client, e: ClientEvent, f: Family, g: u64)
    requires StateOk(c.state) && !IsCurrent(c.state, f, g) && g <= Generation(c.state, f)
    ensures !IsCurrent(Step(c, e).0.state, f, g) && g <= Generation(Step(c, e).0.state, f)
  {
    StepShape(c, e);
    MovesKeepGone(c.state, Step(c, e).0.state, e, f, g);
  }

  lemma MovesKeepGone(s: State, t: State, e: ClientEvent, f: Family, g: u64)
    requires MovesSlots(s, t, e) && !IsCurrent(s, f, g) && g <= Generation(s, f)
    ensures !IsCurrent(t, f, g) && g <= Generation(t, f)
  {
    if Keeps(s, t) {
    } else if h :| Starts(s, t, h) {
    } else {
      assert Edits(s, t, e.key);
    }
  }

  /** Blocks of a running operation touch no slot but their own. */
  ghost predicate Edits(s: State, t: State, key: Key) {
    && t.generations == s.generations
    && s.nextId <= t.nextId
    && (forall h :: h in t.active && h != key.family ==> h in s.active && t.active[h] == s.active[h])
    && (key.family in t.active ==> key.family in s.active && t.active[key.family].generation == s.active[key.family].generation)
  }

  ghost predicate MovesSlots(s: State, t: State, e: ClientEvent) {
    Keeps(s, t) || (exists f :: Starts(s, t, f)) || (e.Op? && Edits(s, t, e.key))
  }

  lemma OpShape(s: State, key: Key, b: Block)
    requires Fits(key.family, b)
    ensures Edits(s, RunBlock(s, key, b).0, key)
  {
    if b.Tracks? || b.Untracks? {
    } else if key.family == Send {
      SendBlockMove(s, key, b);
    } else if key.family == Resolve {
      ResolveBlockMove(s, key, b);
    } else {
      LoadBlockMove(s, key, b);
    }
  }

  lemma ShutdownMove(s: State, channel: nat)
    ensures Keeps(s, ShutdownTurn(s, channel).0)
  {
    TakenDownShape(s.(closing := true));
  }

  lemma StartShape(c: Client, e: ClientEvent)
    requires e.BeginSend? || e.BeginResolve? || e.BeginPreview? || e.BeginRefresh? || e.BeginPage?
    ensures MovesSlots(c.state, Step(c, e).0.state, e)
  {
    var s := c.state;
    if e.BeginSend? {
      BeginSendMove(s, e.workflow, e.requests);
    } else if e.BeginResolve? {
      BeginResolveMove(s, e.requests);
    } else if e.BeginPreview? {
      BeginPreviewMove(s, e.requests);
    } else if e.BeginRefresh? {
      BeginRefreshMove(s, e.view);
    } else {
      BeginPageMove(s, e.view, e.hasMore);
    }
  }

  lemma CancelKeepsSlots(c: Client, e: ClientEvent)
    requires e.CancelsSend? || e.CancelsRefresh? || e.CancelsLoad? || e.CancelsPreview?
    ensures Keeps(c.state, Step(c, e).0.state) && Step(c, e).0.owned == c.owned
  {
    var s := c.state;
    if e.CancelsSend? {
      CancelSendMove(s);
    } else if e.CancelsRefresh? {
      CancelRefreshMove(s);
    } else if e.CancelsLoad? {
      CancelLoadMove(s, e.family, ShownBy(e.family));
    } else {
      CancelPreviewMove(s);
    }
  }

  /** Calls that belong to no operation take no slot. */
  lemma CallKeepsSlots(c: Client, e: ClientEvent)
    requires e.CancelsSend? || e.CancelsRefresh? || e.CancelsLoad? || e.CancelsPreview? || e.Waits? || e.ShutsDown?
    ensures Keeps(c.state, Step(c, e).0.state) && Step(c, e).0.owned == c.owned
  {
    if e.ShutsDown? {
      ShutdownMove(c.state, c.channels);
    } else if !e.Waits? {
      CancelKeepsSlots(c, e);
    }
  }

  lemma StepShape(c: Client, e: ClientEvent)
    ensures MovesSlots(c.state, Step(c, e).0.state, e)
  {
    if e.Op? {
      if MayRun(c, e.key, e.block) {
        OpShape(c.state, e.key, e.block);
      }
    } else if e.BeginSend? || e.BeginResolve? || e.BeginPreview? || e.BeginRefresh? || e.BeginPage? {
      StartShape(c, e);
    } else {
      CallKeepsSlots(c, e);
    }
  }

  /** Generations only grow. */
  lemma GenerationsGrow(c: Client, e: ClientEvent, f: Family)
    ensures Generation(Step(c, e).0.state, f) >= Generation(c.state, f)
  {
    StepShape(c, e);
    if h :| Starts(c.state, Step(c, e).0.state, h) {
    }
  }

  /** Whatever runs afterwards, an operation that lost its slot never holds it again. */
  lemma {:induction false} NeverCurrentAgain(c: Client, events: seq<ClientEvent>, f: Family, g: u64)
    requires StateOk(c.state) && !IsCurrent(c.state, f, g) && g <= Generation(c.state, f)
    ensures !IsCurrent(Run(c, events).state, f, g)
    decreases |events|
  {
    if events != [] {
      StepStaysGone(c, events[0], f, g);
      StepStateOk(c, events[0]);
      NeverCurrentAgain(Step(c, events[0]).0, events[1..], f, g);
    }
  }

  /** A cancellation that succeeded is final: that send can never start its commit. */
  lemma CancelledNeverCommits(c: Client, g: u64, events: seq<ClientEvent>)
    requires StateOk(c.state) && IsCurrent(c.state, Send, g)
    requires CancelSend(c.state).1.Cancelling?
    ensures var later := Run(WithState(c, CancelSend(c.state)).0, events).state;
            BeginCommit(later, g).1.Denied? && BeginCommit(later, g).0 == later
  {
    var cancelled := WithState(c, CancelSend(c.state)).0;
    CancelSendOk(c.state);
    CancelSendMove(c.state);
    assert !IsCurrent(cancelled.state, Send, g);
    NeverCurrentAgain(cancelled, events, Send, g);
  }

  // ----- runs -----

  lemma {:induction false} RunStateOk(c: Client, events: seq<ClientEvent>)
    requires StateOk(c.state)
    ensures StateOk(Run(c, events).state)
    decreases |events|
  {
    if events != [] {
      StepStateOk(c, events[0]);
      RunStateOk(Step(c, events[0]).0, events[1..]);
    }
  }

  /** Send and standalone resolution never hold their slots at the same time. */
  lemma SingleFlight(snapshot: Snapshot, events: seq<ClientEvent>)
    ensures StateOk(Run(NewClient(snapshot), events).state)
  {
    RunStateOk(NewClient(snapshot), events);
  }

  // ----- the commit boundary -----

  predicate Committed(s: State, g: u64) {
    IsCurrent(s, Send, g) && s.commitStarted
  }

  /** The send's own last block. */
  predicate EndsItself(e: ClientEvent, g: u64) {
    e.Op? && e.key == Key(Send, g) && (e.block.Blocks? || e.block.Ends? || e.block.Finishes?)
  }

  lemma SendBlocksKeepCommit(s: State, g: u64, key: Key, b: Block)
    requires Committed(s, g) && key.family == Send && Fits(Send, b) && !EndsItself(Op(key, b), g)
    ensures Committed(RunBlock(s, key, b).0, g)
  {
    if key.generation != g {
      StaleInert(s, key, b);
    }
  }

  lemma ResolveBlocksKeepCommit(s: State, g: u64, key: Key, b: Block)
    requires Committed(s, g) && key.family == Resolve && Fits(Resolve, b)
    ensures Committed(RunBlock(s, key, b).0, g)
  {
  }

  lemma LoadBlocksKeepCommit(s: State, g: u64, key: Key, b: Block)
    requires Committed(s, g) && key.family != Send && key.family != Resolve && Fits(key.family, b)
    ensures Committed(RunBlock(s, key, b).0, g)
  {
    var f := key.family;
    if b.PublishesComponent? {
      var loaded := if b.value.HostCancelled? then LoadFailed else b.value;
      AbsorbShape(s, b.component, b.component, loaded);
      PublishServes(Absorb(s, b.component, b.component, loaded), Done);
    } else if b.FinishesLoad? {
      AbsorbShape(Vacate(s, f), DataOf(f), ShownBy(f), b.page);
      PublishServes(Absorb(Vacate(s, f), DataOf(f), ShownBy(f), b.page), Done);
    }
  }

  lemma OtherBlocksKeepCommit(s: State, g: u64, key: Key, b: Block)
    requires Committed(s, g) && Fits(key.family, b)
    requires !EndsItself(Op(key, b), g)
    ensures Committed(RunBlock(s, key, b).0, g)
  {
    if key.family == Send {
      SendBlocksKeepCommit(s, g, key, b);
    } else if key.family == Resolve {
      ResolveBlocksKeepCommit(s, g, key, b);
    } else {
      LoadBlocksKeepCommit(s, g, key, b);
    }
  }

  lemma RefreshKeepsCommit(s: State, g: u64, view: View)
    requires Committed(s, g)
    ensures Committed(StartRefresh(s, view).0, g)
  {
    var (reserved, ids) := Allocate(s, if view.Wallet? then 2 else 1);
    var f := view.RefreshFamily();
    if Running(s) && ids.Some? && Bump(reserved, f).Some? {
      var occupied := Vacate(Occupy(Bump(reserved, f).value, f, ids.value), view.PageFamily());
      assert Committed(occupied, g);
      var loading := SetResource(SetLoading(occupied, view), view.Page(), ResourceIdle);
      assert loading == occupied.(snapshot := loading.snapshot);
      PublishServes(loading, Started(Generation(occupied, f), ids.value));
    }
  }

  lemma PageKeepsCommit(s: State, g: u64, view: View, hasMore: bool)
    requires Committed(s, g)
    ensures Committed(StartPage(s, view, hasMore).0, g)
  {
  }

  lemma CancelsKeepCommit(s: State, g: u64, f: Family)
    requires Committed(s, g) && IsLoad(f)
    ensures Committed(CancelRefresh(s).0, g) && Committed(CancelLoad(s, f, ShownBy(f)).0, g)
    ensures Committed(CancelPreview(s).0, g)
  {
  }

  lemma StepKeepsCommit(c: Client, e: ClientEvent, g: u64)
    requires StateOk(c.state) && Committed(c.state, g) && !EndsItself(e, g)
    ensures Committed(Step(c, e).0.state, g)
  {
    var s := c.state;
    match e {
      case BeginRefresh(view) => RefreshKeepsCommit(s, g, view);
      case BeginPage(view, hasMore) => PageKeepsCommit(s, g, view, hasMore);
      case Op(key, b) => if MayRun(c, key, b) { OtherBlocksKeepCommit(s, g, key, b); }
      case CancelsRefresh => CancelsKeepCommit(s, g, Pagination);
      case CancelsLoad(f) => if IsLoad(f) { CancelsKeepCommit(s, g, f); }
      case CancelsPreview => CancelsKeepCommit(s, g, Pagination);
      case _ =>
    }
  }

  /** Past the boundary nothing but the send itself can take its slot: whatever
      else the callers do, cancellation is refused as too late, shutdown waits,
      and new sends and resolutions are refused. */
  lemma {:induction false} CommitBoundary(c: Client, events: seq<ClientEvent>, g: u64)
    requires StateOk(c.state) && Committed(c.state, g)
    requires forall e :: e in events ==> !EndsItself(e, g)
    ensures var later := Run(c, events);
            && Committed(later.state, g)
            && Step(later, CancelsSend) == (later, Denied(TooLate))
            && (forall n :: Step(later, BeginResolve(n)).1.Denied?)
            && (forall w, n :: Step(later, BeginSend(w, n)).1.Denied?)
            && Step(later, ShutsDown).1 == Waiting
            && Check(later.state, Send, g) == Done
    decreases |events|
  {
    if events == [] {
    } else {
      assert events[0] in events;
      StepKeepsCommit(c, events[0], g);
      StepStateOk(c, events[0]);
      CommitBoundary(Step(c, events[0]).0, events[1..], g);
    }
  }
}
