/** Request numbers over every interleaving: none is ever used by two operations. */
module ClientRequests {
  import opened Basics
  import opened ClientModel
  import opened ClientRuns
  import opened ClientSafety
  import opened ClientMoves
  import opened ClientTheorems

  ghost predicate Reserved(c: Client, key: Key) {
    && key.generation <= Generation(c.state, key.family)
    && (key in c.owned ==> forall id :: id in c.owned[key] ==> id < c.state.nextId)
  }

  /** The host runs only numbers the slot's operation reserved, each once. */
  ghost predicate Tracked(c: Client, f: Family) {
    f in c.state.active ==>
      && Key(f, c.state.active[f].generation) in c.owned
      && Distinct(c.state.active[f].ids)
      && (forall id :: id in c.state.active[f].ids ==> id in c.owned[Key(f, c.state.active[f].generation)])
  }

  ghost predicate Apart(owned: map<Key, set<u64>>) {
    forall k, l :: k in owned && l in owned && k != l ==> owned[k] !! owned[l]
  }

  ghost predicate IdsOk(c: Client) {
    && (forall key :: key in c.owned ==> Reserved(c, key))
    && Apart(c.owned)
    && (forall f :: f in c.state.active ==> Tracked(c, f))
  }

  lemma KeepsIds(c: Client, t: State)
    requires IdsOk(c) && Keeps(c.state, t)
    ensures IdsOk(c.(state := t))
  {
  }

  /** Numbers reserved now are above every number reserved before. */
  lemma NewNumbersApart(c: Client, key: Key, hi: u64, more: set<u64>)
    requires IdsOk(c) && more == Numbers(c.state.nextId, hi) + (if key in c.owned then c.owned[key] else {})
    ensures Apart(c.owned[key := more])
  {
    var owned := c.owned[key := more];
    forall k, l | k in owned && l in owned && k != l ensures owned[k] !! owned[l] {
      if k == key {
        assert Reserved(c, l);
      } else if l == key {
        assert Reserved(c, k);
      }
    }
  }

  lemma StartsIds(c: Client, f: Family, t: State, reply: Reply)
    requires IdsOk(c) && Starts(c.state, t, f)
    ensures IdsOk(StartedWith(c, f, (t, reply)).0)
  {
    var key := Key(f, Generation(t, f));
    var d := StartedWith(c, f, (t, reply)).0;
    assert forall k :: k in c.owned ==> Reserved(c, k);
    assert key !in c.owned;
    NewNumbersApart(c, key, t.nextId, Numbers(c.state.nextId, t.nextId));
    forall k | k in d.owned ensures Reserved(d, k) {
      if k != key { assert Reserved(c, k); }
    }
    forall h | h in d.state.active ensures Tracked(d, h) {
      if h != f { assert Tracked(c, h); }
    }
  }

  lemma StartedIds(c: Client, f: Family, result: (State, Reply))
    requires IdsOk(c) && (Keeps(c.state, result.0) || Starts(c.state, result.0, f))
    ensures IdsOk(StartedWith(c, f, result).0)
  {
    if Generation(result.0, f) == Generation(c.state, f) {
      KeepsIds(c, result.0);
    } else {
      StartsIds(c, f, result.0, result.1);
    }
  }

  lemma {:induction false} WithoutDistinct(ids: seq<u64>, id: u64)
    requires Distinct(ids)
    ensures Distinct(Without(ids, id))
  {
    if ids != [] {
      WithoutDistinct(ids[..|ids| - 1], id);
      var rest := Without(ids[..|ids| - 1], id);
      forall i | 0 <= i < |rest| ensures rest[i] != ids[|ids| - 1] {
        assert rest[i] in ids[..|ids| - 1];
      }
    }
  }

  /** What a block may do to its own operation's tracked numbers. */
  ghost predicate OwnIds(c: Client, t: State, key: Key) {
    key.family in t.active ==>
      && key.family in c.state.active && t.active[key.family].generation == c.state.active[key.family].generation
      && (t.active[key.family] != c.state.active[key.family] ==>
            t.active[key.family].generation == key.generation && Distinct(t.active[key.family].ids)
            && key in c.owned && forall id :: id in t.active[key.family].ids ==> id in c.owned[key])
  }

  lemma TrackIds(c: Client, key: Key, b: Block)
    requires IdsOk(c) && MayRun(c, key, b) && (b.Tracks? || b.Untracks?)
    ensures OwnIds(c, RunBlock(c.state, key, b).0, key)
  {
    var f := key.family;
    if IsCurrent(c.state, f, key.generation) {
      assert Tracked(c, f);
      WithoutDistinct(c.state.active[f].ids, b.id);
    }
  }

  lemma OpOwnIds(c: Client, key: Key, b: Block)
    requires IdsOk(c) && MayRun(c, key, b)
    ensures OwnIds(c, RunBlock(c.state, key, b).0, key)
  {
    var s := c.state;
    if b.Tracks? || b.Untracks? {
      TrackIds(c, key, b);
    } else if key.family == Send {
      SendBlockMove(s, key, b);
    } else if key.family == Resolve {
      ResolveBlockMove(s, key, b);
    } else {
      LoadBlockMove(s, key, b);
    }
  }

  lemma OpIds(c: Client, key: Key, b: Block)
    requires IdsOk(c) && MayRun(c, key, b)
    ensures IdsOk(RunOp(c, key, b).0)
  {
    var t := RunBlock(c.state, key, b).0;
    var d := RunOp(c, key, b).0;
    assert Edits(c.state, t, key) by { OpShape(c.state, key, b); }
    assert OwnIds(c, t, key) by { OpOwnIds(c, key, b); }
    assert Apart(d.owned) by { NewNumbersApart(c, key, t.nextId, d.owned[key]); }
    forall k | k in d.owned ensures Reserved(d, k) {
      assert Reserved(c, k);
    }
    forall h | h in d.state.active ensures Tracked(d, h) {
      assert Tracked(c, h);
    }
  }

  lemma StepIds(c: Client, e: ClientEvent)
    requires IdsOk(c)
    ensures IdsOk(Step(c, e).0)
  {
    var s := c.state;
    match e {
      case BeginSend(workflow, n) =>
        BeginSendMove(s, workflow, n);
        StartedIds(c, Send, StartSend(s, workflow, n));
      case BeginResolve(n) =>
        BeginResolveMove(s, n);
        StartedIds(c, Resolve, StartResolve(s, n));
      case BeginPreview(n) =>
        BeginPreviewMove(s, n);
        StartedIds(c, Preview, StartPreview(s, n));
      case BeginRefresh(view) =>
        BeginRefreshMove(s, view);
        StartedIds(c, view.RefreshFamily(), StartRefresh(s, view));
      case BeginPage(view, hasMore) =>
        BeginPageMove(s, view, hasMore);
        StartedIds(c, view.PageFamily(), StartPage(s, view, hasMore));
      case Op(key, b) => if MayRun(c, key, b) { OpIds(c, key, b); }
      case _ =>
        CallKeepsSlots(c, e);
        KeepsIds(c, Step(c, e).0.state);
    }
  }

  lemma {:induction false} RunIds(c: Client, events: seq<ClientEvent>)
    requires IdsOk(c)
    ensures IdsOk(Run(c, events))
    decreases |events|
  {
    if events != [] {
      StepIds(c, events[0]);
      RunIds(Step(c, events[0]).0, events[1..]);
    }
  }

  /** No request number is ever reserved by two operations, and the requests in
      flight in two slots never share a number. */
  lemma RequestsNeverCollide(snapshot: Snapshot, events: seq<ClientEvent>, f: Family, h: Family)
    ensures Apart(Run(NewClient(snapshot), events).owned)
    ensures var s := Run(NewClient(snapshot), events).state;
            f in s.active && h in s.active && f != h ==>
              forall id :: id in s.active[f].ids ==> id !in s.active[h].ids
  {
    RunIds(NewClient(snapshot), events);
    var c := Run(NewClient(snapshot), events);
    if f in c.state.active && h in c.state.active && f != h {
      assert Tracked(c, f) && Tracked(c, h);
      assert c.owned[Key(f, c.state.active[f].generation)] !! c.owned[Key(h, c.state.active[h].generation)];
    }
  }

  /** Time moves one way: revisions grow and a closing client stays closing. */
  ghost predicate After(s: State, t: State) {
    s.snapshot.revision <= t.snapshot.revision && (s.closing ==> t.closing)
  }

  lemma ShutdownAfter(s: State, channel: nat)
    ensures After(s, ShutdownTurn(s, channel).0)
  {
    TakenDownShape(s.(closing := true));
  }

  lemma BeginAfter(c: Client, e: ClientEvent)
    requires e.BeginSend? || e.BeginResolve? || e.BeginPreview? || e.BeginRefresh? || e.BeginPage?
    ensures After(c.state, Step(c, e).0.state)
  {
    var s := c.state;
    match e {
      case BeginSend(workflow, n) => BeginSendMove(s, workflow, n);
      case BeginResolve(n) => BeginResolveMove(s, n);
      case BeginPreview(n) => BeginPreviewMove(s, n);
      case BeginRefresh(view) => BeginRefreshMove(s, view);
      case BeginPage(view, hasMore) => BeginPageMove(s, view, hasMore);
    }
  }

  lemma BlockAfter(s: State, key: Key, b: Block)
    requires Fits(key.family, b)
    ensures After(s, RunBlock(s, key, b).0)
  {
    if b.Tracks? || b.Untracks? {
    } else if key.family == Send {
      SendBlockMove(s, key, b);
    } else if key.family == Resolve {
      ResolveBlockMove(s, key, b);
    } else {
      LoadBlockMove(s, key, b);
    }
  }

  lemma CancelAfter(c: Client, e: ClientEvent)
    requires e.CancelsSend? || e.CancelsRefresh? || e.CancelsLoad? || e.CancelsPreview?
    ensures After(c.state, Step(c, e).0.state)
  {
    var s := c.state;
    match e {
      case CancelsSend => CancelSendMove(s);
      case CancelsRefresh => CancelRefreshMove(s);
      case CancelsLoad(f) => CancelLoadMove(s, f, ShownBy(f));
      case CancelsPreview => CancelPreviewMove(s);
    }
  }

  lemma StepAfter(c: Client, e: ClientEvent)
    ensures After(c.state, Step(c, e).0.state)
  {
    var s := c.state;
    match e {
      case Op(key, b) => if MayRun(c, key, b) { BlockAfter(s, key, b); }
      case ShutsDown => ShutdownAfter(s, c.channels);
      case CancelsSend => CancelAfter(c, e);
      case CancelsRefresh => CancelAfter(c, e);
      case CancelsLoad(f) => CancelAfter(c, e);
      case CancelsPreview => CancelAfter(c, e);
      case Waits(after) =>
      case _ => BeginAfter(c, e);
    }
  }
}
