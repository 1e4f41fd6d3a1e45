/** The few ways any block under the mutex can change slots, request numbers,
    and listeners. */
module ClientMoves {
  import opened Basics
  import SendReducer
  import opened ClientModel
  import opened ClientRuns

  /** No operation appears; some may be gone. */
  ghost predicate Keeps(s: State, t: State) {
    && t.generations == s.generations
    && s.nextId <= t.nextId
    && (forall h :: h in t.active ==> h in s.active && t.active[h] == s.active[h])
  }

  /** A new operation of family `f` takes the next generation; if it holds the
      slot, its tracked requests are among the numbers reserved just now. */
  ghost predicate Starts(s: State, t: State, f: Family) {
    && t.generations == s.generations[f := Generation(t, f)] && Generation(t, f) as int == Generation(s, f) + 1
    && s.nextId <= t.nextId
    && (forall h :: h in t.active && h != f ==> h in s.active && t.active[h] == s.active[h])
    && (f in t.active ==>
          && t.active[f].generation == Generation(t, f)
          && Distinct(t.active[f].ids)
          && (forall id :: id in t.active[f].ids ==> s.nextId <= id < t.nextId))
  }

  ghost predicate Silent(s: State, t: State) {
    t.snapshot.revision == s.snapshot.revision && t.waiters == s.waiters && t.woken == s.woken
  }

  ghost predicate Announces(s: State, t: State) {
    && t.snapshot.revision as int == s.snapshot.revision + 1
    && t.waiters == StillWaiting(s.waiters, t.snapshot.revision)
    && t.woken == s.woken + Signalled(s.waiters, t.snapshot.revision)
  }

  /** Listeners either stay as they are or are served by exactly one revision. */
  ghost predicate Serves(s: State, t: State) {
    && t.dropped == s.dropped && t.closing == s.closing && t.shutdown == s.shutdown
    && (Silent(s, t) || Announces(s, t))
  }

  lemma PublishServes(s: State, reply: Reply)
    ensures Serves(s, Publish(s, reply).0)
    ensures Publish(s, reply).0.active == s.active && Publish(s, reply).0.nextId == s.nextId
    ensures Publish(s, reply).0.generations == s.generations
    ensures Publish(s, reply).0.snapshot.send == s.snapshot.send && Publish(s, reply).0.snapshot.data == s.snapshot.data
    ensures Publish(s, reply).0.commitStarted == s.commitStarted && Publish(s, reply).0.shutdown == s.shutdown
    ensures Publish(s, reply).0.closing == s.closing
    ensures s.snapshot.revision < U64_MAX ==>
              Publish(s, reply).1 == reply && Publish(s, reply).0.snapshot.revision as int == s.snapshot.revision + 1
    ensures s.snapshot.revision == U64_MAX ==> Publish(s, reply) == (s, Denied(Exhausted))
  {
  }

  /** A slot taken without tracked requests. */
  lemma TakeStarts(s: State, f: Family, n: nat)
    requires Bump(s, f).Some?
    ensures var (reserved, ids) := Allocate(Bump(s, f).value, n);
            Starts(s, Occupy(reserved, f, []), f) && Serves(s, Occupy(reserved, f, []))
  {
  }

  lemma UnusedStarts(s: State, f: Family, n: nat)
    requires Bump(s, f).Some? && f !in s.active
    ensures var reserved := Allocate(Bump(s, f).value, n).0; Starts(s, reserved, f) && Serves(s, reserved)
  {
  }

  lemma BeginResolveMove(s: State, n: nat)
    ensures var t := StartResolve(s, n).0; (Keeps(s, t) || Starts(s, t, Resolve)) && Serves(s, t)
  {
    if Running(s) && Send !in s.active && Resolve !in s.active && Bump(s, Resolve).Some? {
      UnusedStarts(s, Resolve, n);
      TakeStarts(s, Resolve, n);
    }
  }

  lemma BeginPreviewMove(s: State, n: nat)
    ensures var t := StartPreview(s, n).0; (Keeps(s, t) || Starts(s, t, Preview)) && Serves(s, t)
  {
    if Running(s) && Send !in s.active && Preview !in s.active && Bump(s, Preview).Some? {
      UnusedStarts(s, Preview, n);
      TakeStarts(s, Preview, n);
    }
  }

  lemma FreshIds(s: State, n: nat)
    requires Allocate(s, n).1.Some?
    ensures Distinct(Allocate(s, n).1.value)
    ensures forall id :: id in Allocate(s, n).1.value ==> s.nextId <= id < Allocate(s, n).0.nextId
  {
  }

  /** Publishing what is shown changes no slot. */
  lemma PublishStarts(s: State, occupied: State, shown: State, f: Family, reply: Reply)
    requires Starts(s, occupied, f) && Silent(s, occupied) && Serves(s, occupied)
    requires shown == occupied.(snapshot := shown.snapshot) && shown.snapshot.revision == occupied.snapshot.revision
    ensures var t := Publish(shown, reply).0; Starts(s, t, f) && Serves(s, t)
  {
    PublishServes(shown, reply);
  }

  lemma OccupyStarts(s: State, reserved: State, f: Family, page: Family, n: nat)
    requires Allocate(s, n).1.Some? && reserved == Allocate(s, n).0 && Bump(reserved, f).Some? && f != page
    ensures var t := Vacate(Occupy(Bump(reserved, f).value, f, Allocate(s, n).1.value), page);
            Starts(s, t, f) && Silent(s, t) && Serves(s, t)
  {
    FreshIds(s, n);
  }

  lemma BeginSendMove(s: State, workflow: SendReducer.Workflow, n: nat)
    ensures var t := StartSend(s, workflow, n).0; (Keeps(s, t) || Starts(s, t, Send)) && Serves(s, t)
  {
    if Running(s) && Send !in s.active && Resolve !in s.active && Bump(s, Send).Some? {
      var (reserved, ids) := Allocate(Bump(s, Send).value, n);
      if ids.Some? {
        var occupied := Occupy(reserved, Send, []).(commitStarted := false, workflow := Some(workflow));
        var shown := SetSend(occupied, ViewOf(workflow));
        assert shown == SetSend(Occupy(reserved, Send, []), ViewOf(workflow)).(
          commitStarted := false, workflow := Some(workflow));
        assert Starts(s, occupied, Send);
        PublishStarts(s, occupied, shown, Send, Started(Generation(occupied, Send), ids.value));
      }
    }
  }

  lemma BeginRefreshMove(s: State, view: View)
    ensures var t := StartRefresh(s, view).0; (Keeps(s, t) || Starts(s, t, view.RefreshFamily())) && Serves(s, t)
  {
    var n := if view.Wallet? then 2 else 1;
    var (reserved, ids) := Allocate(s, n);
    var f := view.RefreshFamily();
    if Running(s) && ids.Some? && Bump(reserved, f).Some? {
      OccupyStarts(s, reserved, f, view.PageFamily(), n);
      var occupied := Vacate(Occupy(Bump(reserved, f).value, f, ids.value), view.PageFamily());
      var loading := SetResource(SetLoading(occupied, view), view.Page(), ResourceIdle);
      assert loading == occupied.(snapshot := loading.snapshot);
      PublishStarts(s, occupied, loading, f, Started(Generation(occupied, f), ids.value));
    }
  }

  lemma BeginPageMove(s: State, view: View, hasMore: bool)
    ensures var t := StartPage(s, view, hasMore).0; (Keeps(s, t) || Starts(s, t, view.PageFamily())) && Serves(s, t)
  {
    var (reserved, ids) := Allocate(s, 1);
    var f := view.PageFamily();
    if Running(s) && f !in s.active && view.RefreshFamily() !in s.active && hasMore && ids.Some? && Bump(reserved, f).Some? {
      var occupied := Occupy(Bump(reserved, f).value, f, ids.value);
      assert Starts(s, occupied, f) by { FreshIds(s, 1); }
      var loading := SetResource(occupied, view.Page(), ResourceLoading);
      PublishStarts(s, occupied, loading, f, Started(Generation(Bump(reserved, f).value, f), ids.value));
    }
  }

  /** Publishing after slots were given up appears as giving them up. */
  lemma PublishKeeps(s: State, left: State, shown: State, reply: Reply)
    requires Keeps(s, left) && Silent(s, left) && Serves(s, left)
    requires shown == left.(snapshot := shown.snapshot, workflow := shown.workflow)
    requires shown.snapshot.revision == left.snapshot.revision
    ensures var t := Publish(shown, reply).0; Keeps(s, t) && t.nextId == left.nextId && Serves(s, t)
  {
    PublishServes(shown, reply);
  }

  lemma CancelSendMove(s: State)
    ensures var t := CancelSend(s).0; Keeps(s, t) && Serves(s, t)
  {
    if Send in s.active && !s.commitStarted {
      PublishKeeps(s, ReleaseSend(s), CancelWorkflow(SetSend(ReleaseSend(s), CancelledView(s))),
                   Cancelling(s.active[Send].ids));
    }
  }

  lemma CancelRefreshMove(s: State)
    ensures var t := CancelRefresh(s).0; Keeps(s, t) && Serves(s, t)
  {
    if RequestsOf(s, Refresh) != [] {
      var refreshed := CancelLoading(CancelLoading(Vacate(s, Refresh), Account), Activity);
      assert refreshed == Vacate(s, Refresh).(snapshot := refreshed.snapshot);
      PublishKeeps(s, Vacate(s, Refresh), refreshed, Cancelling(RequestsOf(s, Refresh)));
    }
  }

  lemma CancelLoadMove(s: State, f: Family, shown: Resource)
    ensures var t := CancelLoad(s, f, shown).0; Keeps(s, t) && Serves(s, t)
  {
    if f in s.active {
      PublishKeeps(s, Vacate(s, f), SetResource(Vacate(s, f), shown, ResourceIdle), Cancelling(RequestsOf(s, f)));
    }
  }

  lemma CancelPreviewMove(s: State)
    ensures var t := CancelPreview(s).0; Keeps(s, t) && Serves(s, t)
  {
  }

  lemma SendShowMove(s: State, key: Key, b: Block)
    requires key.family == Send && (b.Publishes? || b.PublishesPrior?)
    ensures var t := RunBlock(s, key, b).0; Keeps(s, t) && t.nextId == s.nextId && Serves(s, t)
  {
    if IsCurrent(s, Send, key.generation) {
      var shown := if b.Publishes? then SetSend(s, ViewOf(b.workflow)).(workflow := Some(b.workflow))
                   else SetSend(s, b.prior);
      PublishKeeps(s, s, shown, Done);
    }
  }

  lemma SendEndMove(s: State, key: Key, b: Block)
    requires key.family == Send && (b.Blocks? || b.Ends? || b.Finishes?)
    ensures var t := RunBlock(s, key, b).0; Keeps(s, t) && t.nextId == s.nextId && Serves(s, t)
  {
    if IsCurrent(s, Send, key.generation) {
      var shown := match b
        case Blocks(view) => SetSend(ReleaseSend(s), view).(workflow := None)
        case Ends(phase, message) =>
          SetSend(ReleaseSend(s), s.snapshot.send.(phase := phase, error := Some(message)))
        case Finishes(workflow) => SetSend(ReleaseSend(s), ViewOf(workflow)).(workflow := Some(workflow));
      PublishKeeps(s, ReleaseSend(s), shown, Done);
    }
  }

  /** Blocks that end or publish. */
  lemma SendBlockMove(s: State, key: Key, b: Block)
    requires key.family == Send && Fits(Send, b) && !b.Tracks? && !b.Untracks?
    ensures var t := RunBlock(s, key, b).0; Keeps(s, t) && t.nextId == s.nextId && Serves(s, t)
  {
    if b.Publishes? || b.PublishesPrior? {
      SendShowMove(s, key, b);
    } else if b.Blocks? || b.Ends? || b.Finishes? {
      SendEndMove(s, key, b);
    }
  }

  lemma ResolveBlockMove(s: State, key: Key, b: Block)
    requires key.family == Resolve && Fits(Resolve, b) && !b.Tracks? && !b.Untracks?
    ensures var t := RunBlock(s, key, b).0; Keeps(s, t) && Serves(s, t)
  {
    if b.Completes? && b.resolved.Some? && IsCurrent(s, Resolve, key.generation) {
      PublishKeeps(s, Vacate(s, Resolve), SetSend(Vacate(s, Resolve), b.resolved.value), Done);
    }
  }

  lemma AbsorbMove(s: State, t: State, r: Resource, shown: Resource, loaded: Loaded)
    requires Keeps(s, t) && Silent(s, t) && t.nextId == s.nextId && Serves(s, t)
    ensures var u := Publish(Absorb(t, r, shown, loaded), Done).0; Keeps(s, u) && u.nextId == s.nextId && Serves(s, u)
  {
    var absorbed := Absorb(t, r, shown, loaded);
    assert absorbed == t.(snapshot := absorbed.snapshot) && absorbed.snapshot.revision == t.snapshot.revision;
    PublishServes(absorbed, Done);
  }

  lemma LoadBlockMove(s: State, key: Key, b: Block)
    requires key.family != Send && key.family != Resolve && Fits(key.family, b) && !b.Tracks? && !b.Untracks?
    ensures var t := RunBlock(s, key, b).0; Keeps(s, t) && t.nextId == s.nextId && Serves(s, t)
  {
    var f := key.family;
    if b.PublishesComponent? {
      AbsorbMove(s, s, b.component, b.component, if b.value.HostCancelled? then LoadFailed else b.value);
    } else if b.FinishesLoad? {
      AbsorbMove(s, Vacate(s, f), DataOf(f), ShownBy(f), b.page);
    }
  }
}
