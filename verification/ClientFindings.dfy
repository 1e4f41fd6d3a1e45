/** A run in which an operation ends and keeps its slot: a preview that comes to its
    first request while a shutdown waits for a committed send. */
module ClientFindings {
  import opened Basics
  import SendReducer
  import opened ClientModel
  import opened ClientRuns
  import opened ClientMoves
  import opened ClientSlots
  import opened ClientPrograms
  import opened ClientEnds

  const PREVIEW: Key := Key(Preview, 1)
  const SEND: Key := Key(Send, 1)

  /** Both operations hold their slots in a running client. */
  ghost predicate BothHold(s: State, revisions: nat) {
    && Running(s) && s.snapshot.revision <= revisions
    && IsCurrent(s, Preview, 1) && IsCurrent(s, Send, 1)
  }

  /** A preview waits before its first request while a send has come to `pc`. */
  ghost predicate Poised(s: System, pc: Pc, revisions: nat) {
    && BothHold(s.client.state, revisions)
    && PREVIEW in s.threads && s.threads[PREVIEW] == At(PreviewSend, StartOf(AccountRead))
    && SEND in s.threads && s.threads[SEND] == At(PreparedSend, pc)
    && PREVIEW in s.client.owned && 1 in s.client.owned[PREVIEW] && RequestsOf(s.client.state, Preview) == []
  }

  // ----- one block of the send -----

  lemma ShowAccepted(s: State, progress: Progress, x: Content)
    requires IsCurrent(s, Send, 1) && Running(s) && s.snapshot.revision < U64_MAX
    ensures var (t, reply) := RunBlock(s, SEND, BlockAt(Show(progress), x));
            && !reply.Denied? && IsCurrent(t, Send, 1) && Running(t) && t.active == s.active
            && t.snapshot.revision <= s.snapshot.revision + 1
  {
    if progress == Prior {
      PublishServes(SetSend(s, x.view), Done);
    } else {
      PublishServes(SetSend(s, ViewOf(x.workflow)).(workflow := Some(x.workflow)), Done);
    }
  }

  /** A block of the current send that the client accepts. */
  lemma SendBlockAccepted(s: State, pc: Pc, x: Content)
    requires IsCurrent(s, Send, 1) && Running(s) && s.snapshot.revision < U64_MAX
    requires Belongs(PreparedSend, pc) && !Last(pc)
    ensures var (t, reply) := RunBlock(s, SEND, BlockAt(pc, x));
            && !reply.Denied? && IsCurrent(t, Send, 1) && Running(t)
            && t.snapshot.revision <= s.snapshot.revision + 1
            && (pc.CommitSend? ==> t.commitStarted)
            && (!pc.StartOf? && !pc.FinishOf? ==> t.active == s.active)
  {
    if pc.Show? {
      ShowAccepted(s, pc.progress, x);
    }
  }

  /** What the system is after an accepted block. */
  lemma RunsAs(s: System, key: Key, x: Content, next: Pc)
    requires key in s.threads && s.threads[key].At?
    requires var At(p, pc) := s.threads[key];
             && MayRun(s.client, key, BlockAt(pc, x)) && !Last(pc) && Follows(p, pc, next)
             && !RunBlock(s.client.state, key, BlockAt(pc, x)).1.Denied?
    ensures var At(p, pc) := s.threads[key];
            SystemStep(s, Runs(key, x, next))
            == System(RunOp(s.client, key, BlockAt(pc, x)).0, s.threads[key := At(p, next)])
  {
  }

  /** What the send holds beside its place. */
  ghost predicate Holding(s: System, id: u64) {
    SEND in s.client.owned && id in s.client.owned[SEND]
  }

  /** A block of the send leaves both operations in their slots. */
  lemma SendBlockHolds(s: State, pc: Pc, x: Content, revisions: nat)
    requires BothHold(s, revisions) && revisions < U64_MAX && Belongs(PreparedSend, pc) && !Last(pc)
    ensures var t := RunBlock(s, SEND, BlockAt(pc, x)).0;
            BothHold(t, revisions + 1) && RequestsOf(t, Preview) == RequestsOf(s, Preview)
  {
    SendBlockAccepted(s, pc, x);
    BelongsFits(PreparedSend, pc, x);
    BlockLeavesOthers(s, SEND, BlockAt(pc, x), PREVIEW);
  }

  lemma Advance(s: System, pc: Pc, x: Content, next: Pc, revisions: nat) returns (t: System)
    requires SystemOk(s) && Poised(s, pc, revisions) && revisions < U64_MAX
    requires !Last(pc) && Follows(PreparedSend, pc, next)
    requires pc.StartOf? ==> Holding(s, x.id) && x.id !in RequestsOf(s.client.state, Send)
    ensures t == SystemStep(s, Runs(SEND, x, next)) && Poised(t, next, revisions + 1)
    ensures Holding(s, x.id) ==> Holding(t, x.id)
    ensures pc.CheckAt? ==> RequestsOf(t.client.state, Send) == RequestsOf(s.client.state, Send)
    ensures pc.CommitSend? ==> t.client.state.commitStarted
  {
    t := SystemStep(s, Runs(SEND, x, next));
    assert Belongs(PreparedSend, pc) && SEND in s.client.owned by { assert ThreadOk(s, SEND); }
    assert MayRun(s.client, SEND, BlockAt(pc, x)) by { BelongsFits(PreparedSend, pc, x); }
    assert t == System(RunOp(s.client, SEND, BlockAt(pc, x)).0, s.threads[SEND := At(PreparedSend, next)]) by {
      SendBlockAccepted(s.client.state, pc, x);
      RunsAs(s, SEND, x, next);
    }
    SendBlockHolds(s.client.state, pc, x, revisions);
    if pc.CheckAt? || pc.CommitSend? {
      SendBlockAccepted(s.client.state, pc, x);
    }
  }

  // ----- the run -----

  lemma {:induction false} RunLonger(s: System, events: seq<SystemEvent>, e: SystemEvent)
    ensures SystemRun(s, events + [e]) == SystemStep(SystemRun(s, events), e)
    decreases |events|
  {
    if events == [] {
      assert events + [e] == [e] && [e][1..] == [];
      assert SystemRun(s, [e]) == SystemRun(SystemStep(s, e), []);
    } else {
      assert (events + [e])[1..] == events[1..] + [e];
      RunLonger(SystemStep(s, events[0]), events[1..], e);
    }
  }

  lemma PreviewStarts(c: Client)
    requires c.state.active == map[] && c.state.generations == map[] && Running(c.state) && c.state.nextId == 1
    requires c.state.snapshot.revision == 0
    ensures var (d, reply) := Step(c, BeginPreview(3));
            && reply.Started? && d.state.active == map[Preview := Slot(1, [])] && d.state.generations == map[Preview := 1]
            && Running(d.state) && d.state.nextId == 4 && d.state.snapshot.revision == 0
            && PREVIEW in d.owned && 1 in d.owned[PREVIEW]
  {
  }

  lemma SendStartState(s: State, w: SendReducer.Workflow)
    requires s.active == map[Preview := Slot(1, [])] && s.generations == map[Preview := 1]
    requires Running(s) && s.nextId == 4 && s.snapshot.revision == 0
    ensures var (t, reply) := StartSend(s, w, 7);
            && reply.Started? && t.active == map[Preview := Slot(1, []), Send := Slot(1, [])]
            && Generation(t, Send) == 1 && Running(t) && t.snapshot.revision == 1 && t.nextId == 11
  {
    var (reserved, ids) := Allocate(Bump(s, Send).value, 7);
    var occupied := SetSend(Occupy(reserved, Send, []), ViewOf(w)).(commitStarted := false, workflow := Some(w));
    PublishServes(occupied, Started(Generation(occupied, Send), ids.value));
  }

  lemma SendStarts(c: Client, w: SendReducer.Workflow)
    requires c.state.active == map[Preview := Slot(1, [])] && c.state.generations == map[Preview := 1]
    requires Running(c.state) && c.state.nextId == 4 && c.state.snapshot.revision == 0
    ensures var (d, reply) := Step(c, BeginSend(w, 7));
            && reply.Started? && d.state == StartSend(c.state, w, 7).0 && Generation(d.state, Send) == 1
            && SEND in d.owned && 4 in d.owned[SEND] && d.owned == c.owned[SEND := d.owned[SEND]]
  {
    SendStartState(c.state, w);
  }

  /** What the system is after an accepted start. */
  lemma BeginsAs(s: System, p: Program, start: ClientEvent, first: Pc)
    requires StartsBy(p, start) && First(p, first) && !Step(s.client, start).1.Denied?
    requires Generation(Step(s.client, start).0.state, p.Family()) != Generation(s.client.state, p.Family())
    ensures var d := Step(s.client, start).0;
            SystemStep(s, Begins(p, start, first))
            == System(d, s.threads[Key(p.Family(), Generation(d.state, p.Family())) := At(p, first)])
  {
  }

  lemma NewSystemOk(snapshot: Snapshot)
    ensures SystemOk(NewSystem(snapshot))
  {
  }

  /** Some run of a new client leads here. */
  ghost predicate Reached(snapshot: Snapshot, s: System) {
    exists events :: SystemRun(NewSystem(snapshot), events) == s
  }

  lemma ReachedNext(snapshot: Snapshot, s: System, e: SystemEvent)
    requires Reached(snapshot, s)
    ensures Reached(snapshot, SystemStep(s, e))
  {
    var events :| SystemRun(NewSystem(snapshot), events) == s;
    RunLonger(NewSystem(snapshot), events, e);
    assert SystemRun(NewSystem(snapshot), events + [e]) == SystemStep(s, e);
  }

  lemma ReachedOk(snapshot: Snapshot, s: System)
    requires Reached(snapshot, s)
    ensures SystemOk(s)
  {
    var events :| SystemRun(NewSystem(snapshot), events) == s;
    NewSystemOk(snapshot);
    SystemRunOk(NewSystem(snapshot), events);
  }

  /** Only the preview has started. */
  ghost predicate PreviewAlone(s: System) {
    && s.threads == map[PREVIEW := At(PreviewSend, StartOf(AccountRead))]
    && s.client.state.active == map[Preview := Slot(1, [])] && s.client.state.generations == map[Preview := 1]
    && Running(s.client.state) && s.client.state.nextId == 4 && s.client.state.snapshot.revision == 0
    && PREVIEW in s.client.owned && 1 in s.client.owned[PREVIEW]
  }

  lemma PreviewBegins(snapshot: Snapshot) returns (s: System)
    ensures Reached(snapshot, s) && PreviewAlone(s)
  {
    var s0 := NewSystem(snapshot);
    var e := Begins(PreviewSend, BeginPreview(3), StartOf(AccountRead));
    assert SystemRun(s0, []) == s0;
    PreviewStarts(s0.client);
    BeginsAs(s0, PreviewSend, BeginPreview(3), StartOf(AccountRead));
    ReachedNext(snapshot, s0, e);
    s := SystemStep(s0, e);
  }

  lemma SendBegins(s: System, x: Content) returns (t: System)
    requires PreviewAlone(s)
    ensures t == SystemStep(s, Begins(PreparedSend, BeginSend(x.workflow, 7), CheckAt(Loaded)))
    ensures Poised(t, CheckAt(Loaded), 1) && Holding(t, 4) && RequestsOf(t.client.state, Send) == []
  {
    var e := Begins(PreparedSend, BeginSend(x.workflow, 7), CheckAt(Loaded));
    t := SystemStep(s, e);
    SendBeginsAs(s, x);
  }

  lemma SendBeginsAs(s: System, x: Content)
    requires PreviewAlone(s)
    ensures var t := SystemStep(s, Begins(PreparedSend, BeginSend(x.workflow, 7), CheckAt(Loaded)));
            && t.client.state.active == map[Preview := Slot(1, []), Send := Slot(1, [])] && Running(t.client.state)
            && t.client.state.snapshot.revision == 1 && Holding(t, 4)
            && t.client.owned == s.client.owned[SEND := t.client.owned[SEND]]
            && t.threads == s.threads[SEND := At(PreparedSend, CheckAt(Loaded))]
  {
    SendStartState(s.client.state, x.workflow);
    SendStarts(s.client, x.workflow);
    BeginsAs(s, PreparedSend, BeginSend(x.workflow, 7), CheckAt(Loaded));
  }

  /** One block of the send, on a reached system. */
  lemma Onward(snapshot: Snapshot, s: System, pc: Pc, x: Content, next: Pc, revisions: nat) returns (t: System)
    requires Reached(snapshot, s) && Poised(s, pc, revisions) && revisions < U64_MAX
    requires !Last(pc) && Follows(PreparedSend, pc, next)
    requires pc.StartOf? ==> Holding(s, x.id) && x.id !in RequestsOf(s.client.state, Send)
    ensures Reached(snapshot, t) && Poised(t, next, revisions + 1)
    ensures Holding(s, x.id) ==> Holding(t, x.id)
    ensures pc.CheckAt? ==> RequestsOf(t.client.state, Send) == RequestsOf(s.client.state, Send)
    ensures pc.CommitSend? ==> t.client.state.commitStarted
  {
    assert SystemOk(s) by { ReachedOk(snapshot, s); }
    t := Advance(s, pc, x, next, revisions);
    ReachedNext(snapshot, s, Runs(SEND, x, next));
  }

  ghost predicate Path(pcs: seq<Pc>) {
    forall i :: 0 <= i < |pcs| - 1 ==> Hop(pcs[i], pcs[i + 1])
  }

  ghost predicate Hop(pc: Pc, next: Pc) {
    !Last(pc) && !pc.StartOf? && Follows(PreparedSend, pc, next)
  }

  lemma PathTail(pcs: seq<Pc>)
    requires Path(pcs) && |pcs| > 1
    ensures Hop(pcs[0], pcs[1]) && Path(pcs[1..])
  {
    forall i | 0 <= i < |pcs[1..]| - 1 ensures Hop(pcs[1..][i], pcs[1..][i + 1]) {
      assert Hop(pcs[i + 1], pcs[i + 2]);
    }
  }

  /** A stretch of blocks of the send. */
  lemma {:induction false} Along(snapshot: Snapshot, s: System, pcs: seq<Pc>, x: Content, revisions: nat)
    returns (t: System)
    requires Reached(snapshot, s) && pcs != [] && Path(pcs) && Poised(s, pcs[0], revisions)
    requires revisions + |pcs| < U64_MAX
    ensures Reached(snapshot, t) && Poised(t, pcs[|pcs| - 1], revisions + |pcs| - 1)
    decreases |pcs|
  {
    if |pcs| == 1 {
      t := s;
    } else {
      PathTail(pcs);
      var u := Onward(snapshot, s, pcs[0], x, pcs[1], revisions);
      t := Along(snapshot, u, pcs[1..], x, revisions + 1);
    }
  }

  /** Its first test, then the request for the account. */
  lemma AccountAsked(snapshot: Snapshot, s: System, x: Content) returns (t: System)
    requires Reached(snapshot, s) && Poised(s, CheckAt(Loaded), 1)
    requires Holding(s, x.id) && RequestsOf(s.client.state, Send) == []
    ensures Reached(snapshot, t) && Poised(t, FinishOf(AccountRead), 3)
  {
    var a := Onward(snapshot, s, CheckAt(Loaded), x, StartOf(AccountRead), 1);
    t := Onward(snapshot, a, StartOf(AccountRead), x, FinishOf(AccountRead), 2);
  }

  lemma CommitPath()
    ensures Path([FinishOf(AccountRead), Show(Accepted), Show(Unlocking), Show(Prepared), CommitSend])
  {
    assert Hop(FinishOf(AccountRead), Show(Accepted)) && Hop(Show(Accepted), Show(Unlocking));
    assert Hop(Show(Unlocking), Show(Prepared)) && Hop(Show(Prepared), CommitSend);
  }

  /** Through its publications to the commit and past it. */
  lemma SendCommits(snapshot: Snapshot, s: System, x: Content) returns (t: System)
    requires Reached(snapshot, s) && Poised(s, FinishOf(AccountRead), 3)
    ensures Reached(snapshot, t) && Poised(t, CheckAt(Stored), 8) && t.client.state.commitStarted
  {
    CommitPath();
    var pcs := [FinishOf(AccountRead), Show(Accepted), Show(Unlocking), Show(Prepared), CommitSend];
    var c := Along(snapshot, s, pcs, x, 3);
    t := Onward(snapshot, c, CommitSend, x, CheckAt(Stored), 7);
  }

  lemma ShutdownWaits(s: System)
    requires BothHold(s.client.state, 8) && s.client.state.commitStarted
    ensures var t := SystemStep(s, Calls(ShutsDown));
            && t.threads == s.threads && t.client.owned == s.client.owned
            && t.client.state == s.client.state.(closing := true, waiters := t.client.state.waiters)
  {
  }

  /** The preview's request is refused because the client is closing, and the
      preview returns. */
  lemma PreviewReturns(s: System, x: Content)
    requires PREVIEW in s.threads && s.threads[PREVIEW] == At(PreviewSend, StartOf(AccountRead))
    requires IsCurrent(s.client.state, Preview, 1) && s.client.state.closing
    requires MayRun(s.client, PREVIEW, Tracks(x.id))
    ensures var t := SystemStep(s, Runs(PREVIEW, x, FinishOf(AccountRead)));
            t.client.state == s.client.state && t.threads == s.threads[PREVIEW := Over]
  {
  }

  /** A preview that is over and still holds its slot, with revisions left. */
  lemma PreviewKeepsSlot(snapshot: Snapshot, content: Content) returns (s: System)
    ensures Reached(snapshot, s)
    ensures PREVIEW in s.threads && s.threads[PREVIEW].Over? && IsCurrent(s.client.state, Preview, 1)
    ensures s.client.state.snapshot.revision < U64_MAX && s.client.state.closing && !s.client.state.shutdown
  {
    var x, y := content.(id := 4), content.(id := 1);
    var alone := PreviewBegins(snapshot);
    var both := SendBegins(alone, x);
    ReachedNext(snapshot, alone, Begins(PreparedSend, BeginSend(x.workflow, 7), CheckAt(Loaded)));
    var loaded := AccountAsked(snapshot, both, x);
    var committed := SendCommits(snapshot, loaded, x);
    var closing := SystemStep(committed, Calls(ShutsDown));
    ShutdownWaits(committed);
    ReachedNext(snapshot, committed, Calls(ShutsDown));
    PreviewReturns(closing, y);
    ReachedNext(snapshot, closing, Runs(PREVIEW, y, FinishOf(AccountRead)));
    s := SystemStep(closing, Runs(PREVIEW, y, FinishOf(AccountRead)));
  }
}
