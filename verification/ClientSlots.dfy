/** Exactly when a block or a refused start leaves its slot taken. */
module ClientSlots {
  import opened Basics
  import SendReducer
  import opened ClientModel
  import opened ClientRuns
  import opened ClientSafety
  import opened ClientMoves
  import opened ClientTheorems

  /** The blocks an operation runs last. */
  predicate Ending(b: Block) {
    || b.Blocks? || b.Ends? || b.Finishes? || b.Completes? || b.Discards?
    || b.FinishesPreview? || b.FinishesRefresh? || b.FinishesLoad?
  }

  lemma SendEndingReleases(s: State, key: Key, b: Block)
    requires key.family == Send && (b.Blocks? || b.Ends? || b.Finishes?)
    ensures !IsCurrent(RunBlock(s, key, b).0, Send, key.generation)
  {
    if IsCurrent(s, Send, key.generation) {
      match b {
        case Blocks(view) => PublishServes(SetSend(ReleaseSend(s), view).(workflow := None), Done);
        case Ends(phase, message) =>
          PublishServes(SetSend(ReleaseSend(s), s.snapshot.send.(phase := phase, error := Some(message))), Done);
        case Finishes(workflow) =>
          PublishServes(SetSend(ReleaseSend(s), ViewOf(workflow)).(workflow := Some(workflow)), Done);
      }
    }
  }

  lemma LoadEndingReleases(s: State, key: Key, b: Block)
    requires key.family != Send && key.family != Resolve && Fits(key.family, b) && Ending(b)
    ensures !IsCurrent(RunBlock(s, key, b).0, key.family, key.generation)
  {
    var f := key.family;
    if b.FinishesLoad? && IsCurrent(s, f, key.generation) {
      AbsorbShape(Vacate(s, f), DataOf(f), ShownBy(f), b.page);
      PublishServes(Absorb(Vacate(s, f), DataOf(f), ShownBy(f), b.page), Done);
    }
  }

  /** Every ending block leaves its operation without the slot, even when it is
      refused a revision. */
  lemma EndingReleases(s: State, key: Key, b: Block)
    requires Fits(key.family, b) && Ending(b)
    ensures !IsCurrent(RunBlock(s, key, b).0, key.family, key.generation)
  {
    if key.family == Send {
      SendEndingReleases(s, key, b);
    } else if key.family != Resolve {
      LoadEndingReleases(s, key, b);
    }
  }

  /** A block is refused and its operation still holds the slot: the revision
      counter is at its last value, a standalone operation is out of request
      numbers, or a preview tracks a request of a client that is closing. */
  predicate KeepsSlot(s: State, key: Key, b: Block) {
    && IsCurrent(s, key.family, key.generation)
    && match b
       case Publishes(_) => s.snapshot.revision == U64_MAX
       case PublishesPrior(_) => s.snapshot.revision == U64_MAX
       case PublishesComponent(_, _) => s.snapshot.revision == U64_MAX
       case AllocatesMore => s.nextId == U64_MAX
       case Tracks(_) => key.family == Preview && s.closing
       case Untracks(_) => key.family == Preview && s.closing
       case _ => false
  }

  lemma SendKeepsIff(s: State, key: Key, b: Block)
    requires StateOk(s) && key.family == Send && Fits(Send, b) && !Ending(b)
    ensures var (t, reply) := RunBlock(s, key, b);
            reply.Denied? && IsCurrent(t, Send, key.generation) <==> KeepsSlot(s, key, b)
  {
    match b {
      case Publishes(workflow) => PublishServes(SetSend(s, ViewOf(workflow)).(workflow := Some(workflow)), Done);
      case PublishesPrior(view) => PublishServes(SetSend(s, view), Done);
      case _ =>
    }
  }

  lemma ResolveKeepsIff(s: State, key: Key, b: Block)
    requires StateOk(s) && key.family == Resolve && Fits(Resolve, b) && !Ending(b)
    ensures var (t, reply) := RunBlock(s, key, b);
            reply.Denied? && IsCurrent(t, Resolve, key.generation) <==> KeepsSlot(s, key, b)
  {
  }

  lemma LoadKeepsIff(s: State, key: Key, b: Block)
    requires StateOk(s) && key.family != Send && key.family != Resolve && Fits(key.family, b) && !Ending(b)
    ensures var (t, reply) := RunBlock(s, key, b);
            reply.Denied? && IsCurrent(t, key.family, key.generation) <==> KeepsSlot(s, key, b)
  {
    if b.PublishesComponent? {
      var loaded := if b.value.HostCancelled? then LoadFailed else b.value;
      AbsorbShape(s, b.component, b.component, loaded);
      PublishServes(Absorb(s, b.component, b.component, loaded), Done);
    }
  }

  /** The exact condition for a refused block to keep the slot, over every block of
      every family. */
  lemma RefusedBlockKeepsIff(s: State, key: Key, b: Block)
    requires StateOk(s) && Fits(key.family, b)
    ensures var (t, reply) := RunBlock(s, key, b);
            reply.Denied? && IsCurrent(t, key.family, key.generation) <==> KeepsSlot(s, key, b)
  {
    if Ending(b) {
      EndingReleases(s, key, b);
    } else if key.family == Send {
      SendKeepsIff(s, key, b);
    } else if key.family == Resolve {
      ResolveKeepsIff(s, key, b);
    } else {
      LoadKeepsIff(s, key, b);
    }
  }

  // ----- refused starts -----

  /** The start was refused although its new operation holds the slot. */
  predicate RefusedHolding(s: State, result: (State, Reply), f: Family) {
    && result.1.Denied?
    && Generation(result.0, f) != Generation(s, f)
    && IsCurrent(result.0, f, Generation(result.0, f))
  }

  predicate NumbersLeft(s: State, f: Family, n: nat) {
    Generation(s, f) < U64_MAX && s.nextId + n <= U64_MAX
  }

  lemma RefusedSendKeepsIff(s: State, workflow: SendReducer.Workflow, n: nat)
    requires StateOk(s)
    ensures RefusedHolding(s, StartSend(s, workflow, n), Send) <==>
            && Running(s) && Send !in s.active && Resolve !in s.active
            && NumbersLeft(s, Send, n) && s.snapshot.revision == U64_MAX
  {
  }

  lemma RefusedOtherKeepsNothing(s: State, n: nat)
    requires StateOk(s)
    ensures !RefusedHolding(s, StartResolve(s, n), Resolve) && !RefusedHolding(s, StartPreview(s, n), Preview)
  {
  }

  lemma RefusedRefreshKeepsIff(s: State, view: View)
    requires StateOk(s)
    ensures RefusedHolding(s, StartRefresh(s, view), view.RefreshFamily()) <==>
            && Running(s) && NumbersLeft(s, view.RefreshFamily(), if view.Wallet? then 2 else 1)
            && s.snapshot.revision == U64_MAX
  {
    var n := if view.Wallet? then 2 else 1;
    var (reserved, ids) := Allocate(s, n);
    var f := view.RefreshFamily();
    if Running(s) && ids.Some? && Bump(reserved, f).Some? {
      var occupied := Vacate(Occupy(Bump(reserved, f).value, f, ids.value), view.PageFamily());
      var loading := SetResource(SetLoading(occupied, view), view.Page(), ResourceIdle);
      assert loading == occupied.(snapshot := loading.snapshot) && loading.snapshot.revision == s.snapshot.revision;
      PublishServes(loading, Started(Generation(occupied, f), ids.value));
    }
  }

  lemma RefusedPageKeepsIff(s: State, view: View, hasMore: bool)
    requires StateOk(s)
    ensures RefusedHolding(s, StartPage(s, view, hasMore), view.PageFamily()) <==>
            && Running(s) && view.RefreshFamily() !in s.active && view.PageFamily() !in s.active && hasMore
            && NumbersLeft(s, view.PageFamily(), 1) && s.snapshot.revision == U64_MAX
  {
    var (reserved, ids) := Allocate(s, 1);
    var f := view.PageFamily();
    if Running(s) && ids.Some? && Bump(reserved, f).Some? {
      var loading := SetResource(Occupy(Bump(reserved, f).value, f, ids.value), view.Page(), ResourceLoading);
      PublishServes(loading, Started(Generation(Bump(reserved, f).value, f), ids.value));
    }
  }

  // ----- other operations' slots -----

  /** A block never takes another operation's slot away, nor one of its own family
      held by another generation. */
  lemma BlockLeavesOthers(s: State, key: Key, b: Block, other: Key)
    requires Fits(key.family, b) && other != key && IsCurrent(s, other.family, other.generation)
    ensures var t := RunBlock(s, key, b).0;
            IsCurrent(t, other.family, other.generation)
            && (other.family != key.family ==> t.active[other.family] == s.active[other.family])
  {
    if !IsCurrent(s, key.family, key.generation) {
      StaleInert(s, key, b);
    } else {
      BlockKeepsOtherFamilies(s, key, b, other.family);
    }
  }

  lemma BlockKeepsOtherFamilies(s: State, key: Key, b: Block, f: Family)
    requires Fits(key.family, b) && f != key.family && f in s.active
    ensures f in RunBlock(s, key, b).0.active && RunBlock(s, key, b).0.active[f] == s.active[f]
  {
    if key.family == Send {
      SendKeepsOtherFamilies(s, key, b, f);
    } else if key.family == Resolve {
      ResolveKeepsOtherFamilies(s, key, b, f);
    } else {
      LoadKeepsOtherFamilies(s, key, b, f);
    }
  }

  lemma SendKeepsOtherFamilies(s: State, key: Key, b: Block, f: Family)
    requires key.family == Send && Fits(Send, b) && f != Send && f in s.active
    ensures f in RunBlock(s, key, b).0.active && RunBlock(s, key, b).0.active[f] == s.active[f]
  {
    match b {
      case Publishes(workflow) => PublishServes(SetSend(s, ViewOf(workflow)).(workflow := Some(workflow)), Done);
      case PublishesPrior(view) => PublishServes(SetSend(s, view), Done);
      case Blocks(view) => PublishServes(SetSend(ReleaseSend(s), view).(workflow := None), Done);
      case Ends(phase, message) =>
        PublishServes(SetSend(ReleaseSend(s), s.snapshot.send.(phase := phase, error := Some(message))), Done);
      case Finishes(workflow) =>
        PublishServes(SetSend(ReleaseSend(s), ViewOf(workflow)).(workflow := Some(workflow)), Done);
      case _ =>
    }
  }

  lemma ResolveKeepsOtherFamilies(s: State, key: Key, b: Block, f: Family)
    requires key.family == Resolve && Fits(Resolve, b) && f != Resolve && f in s.active
    ensures f in RunBlock(s, key, b).0.active && RunBlock(s, key, b).0.active[f] == s.active[f]
  {
    if b.Completes? && b.resolved.Some? {
      PublishServes(SetSend(Vacate(s, Resolve), b.resolved.value), Done);
    }
  }

  lemma LoadKeepsOtherFamilies(s: State, key: Key, b: Block, f: Family)
    requires key.family != Send && key.family != Resolve && Fits(key.family, b) && f != key.family && f in s.active
    ensures f in RunBlock(s, key, b).0.active && RunBlock(s, key, b).0.active[f] == s.active[f]
  {
    if b.PublishesComponent? {
      var loaded := if b.value.HostCancelled? then LoadFailed else b.value;
      AbsorbShape(s, b.component, b.component, loaded);
      PublishServes(Absorb(s, b.component, b.component, loaded), Done);
    } else if b.FinishesLoad? {
      AbsorbShape(Vacate(s, key.family), DataOf(key.family), ShownBy(key.family), b.page);
      PublishServes(Absorb(Vacate(s, key.family), DataOf(key.family), ShownBy(key.family), b.page), Done);
    }
  }
}
