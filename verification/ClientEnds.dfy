/** Clients whose operations follow their programs: every ended operation has let
    go of its own slot and of no other. */
module ClientEnds {
  import opened Basics
  import SendReducer
  import opened ClientModel
  import opened ClientRuns
  import opened ClientSafety
  import opened ClientMoves
  import opened ClientTheorems
  import opened ClientRequests
  import opened ClientSlots
  import opened ClientPrograms

  /** Where a started operation stands. */
  datatype Thread = At(program: Program, pc: Pc) | Over

  datatype System = System(client: Client, threads: map<Key, Thread>)

  datatype SystemEvent =
    | Begins(program: Program, start: ClientEvent, first: Pc)
    | Runs(key: Key, content: Content, next: Pc)
    | Calls(call: ClientEvent)

  predicate StartsBy(p: Program, e: ClientEvent) {
    && Real(p)
    && match p.Family()
       case Send => e.BeginSend?
       case Resolve => e.BeginResolve?
       case Preview => e.BeginPreview?
       case Refresh => e == BeginRefresh(Wallet)
       case NftRefresh => e == BeginRefresh(NftList)
       case Pagination => e.BeginPage? && e.view == Wallet
       case NftPagination => e.BeginPage? && e.view == NftList
  }

  /** The thread after its block: an ending block or a refusal ends it, except that
      some standalone operations discard their slot after a refusal. */
  function AfterBlock(p: Program, pc: Pc, reply: Reply, next: Pc): Option<Thread> {
    if Last(pc) then Some(Over)
    else if reply.Denied? then Some(if Cleans(p, pc) then At(p, Discard) else Over)
    else if Follows(p, pc, next) then Some(At(p, next))
    else None
  }

  function SystemStep(s: System, e: SystemEvent): System {
    match e
    case Begins(p, start, first) =>
      if !StartsBy(p, start) || !First(p, first) then s
      else
        var (client, reply) := Step(s.client, start);
        var f := p.Family();
        if Generation(client.state, f) == Generation(s.client.state, f) then s.(client := client)
        else
          var key := Key(f, Generation(client.state, f));
          System(client, s.threads[key := if reply.Denied? then Over else At(p, first)])
    case Runs(key, content, next) =>
      if key !in s.threads || s.threads[key].Over? then s
      else
        var At(p, pc) := s.threads[key];
        var block := BlockAt(pc, content);
        if !MayRun(s.client, key, block) then s
        else
          var (client, reply) := Step(s.client, Op(key, block));
          var thread := AfterBlock(p, pc, reply, next);
          if thread.None? then s else System(client, s.threads[key := thread.value])
    case Calls(call) =>
      if call.Op? || call.BeginSend? || call.BeginResolve? || call.BeginPreview? || call.BeginRefresh? || call.BeginPage?
      then s
      else s.(client := Step(s.client, call).0)
  }

  function SystemRun(s: System, events: seq<SystemEvent>): System
    decreases |events|
  {
    if events == [] then s else SystemRun(SystemStep(s, events[0]), events[1..])
  }

  function NewSystem(snapshot: Snapshot): System {
    System(NewClient(snapshot), map[])
  }

  // ----- the invariant -----

  /** The only ways an operation can end and leave its slot taken. */
  predicate Excused(s: State, f: Family) {
    s.snapshot.revision == U64_MAX || (f == Preview && s.closing)
  }

  ghost predicate ThreadOk(s: System, key: Key)
    requires key in s.threads
  {
    && key in s.client.owned
    && match s.threads[key]
       case At(p, pc) => Real(p) && p.Family() == key.family && Belongs(p, pc)
       case Over => IsCurrent(s.client.state, key.family, key.generation) ==> Excused(s.client.state, key.family)
  }

  ghost predicate SystemOk(s: System) {
    && StateOk(s.client.state) && IdsOk(s.client)
    && (forall key :: key in s.threads ==> ThreadOk(s, key))
  }

  /** Another step leaves a thread in order. */
  lemma ThreadStays(s: System, e: ClientEvent, key: Key, d: System)
    requires SystemOk(s) && key in s.threads && key in d.threads && d.threads[key] == s.threads[key]
    requires d.client == Step(s.client, e).0
    ensures ThreadOk(d, key)
  {
    assert ThreadOk(s, key);
    assert Reserved(s.client, key);
    OwnedStays(s.client, e, key);
    if !IsCurrent(s.client.state, key.family, key.generation) {
      StepStaysGone(s.client, e, key.family, key.generation);
    }
    StepAfter(s.client, e);
  }

  lemma OwnedStays(c: Client, e: ClientEvent, key: Key)
    requires key in c.owned
    ensures key in Step(c, e).0.owned
  {
  }

  lemma StepKeepsClient(s: System, e: ClientEvent)
    requires SystemOk(s)
    ensures StateOk(Step(s.client, e).0.state) && IdsOk(Step(s.client, e).0)
  {
    StepStateOk(s.client, e);
    StepIds(s.client, e);
  }

  lemma CallKeeps(s: System, call: ClientEvent)
    requires SystemOk(s)
    ensures SystemOk(SystemStep(s, Calls(call)))
  {
    var d := SystemStep(s, Calls(call));
    if d != s {
      StepKeepsClient(s, call);
      forall key | key in d.threads ensures ThreadOk(d, key) {
        ThreadStays(s, call, key, d);
      }
    }
  }

  // ----- one block of a program -----

  /** The block at `pc` is an ending block exactly when the program is at its end. */
  lemma LastEnds(pc: Pc, x: Content)
    ensures Ending(BlockAt(pc, x)) <==> Last(pc)
  {
  }

  /** A thread that is over after its block left no slot, or is excused. */
  lemma BlockEnds(s: State, key: Key, p: Program, pc: Pc, x: Content)
    requires StateOk(s) && Real(p) && p.Family() == key.family && Belongs(p, pc)
    ensures var (t, reply) := RunBlock(s, key, BlockAt(pc, x));
            Last(pc) || (reply.Denied? && !Cleans(p, pc)) ==>
              (IsCurrent(t, key.family, key.generation) ==> Excused(t, key.family))
  {
    var b := BlockAt(pc, x);
    BelongsFits(p, pc, x);
    LastEnds(pc, x);
    if Last(pc) {
      EndingReleases(s, key, b);
    } else {
      RefusedBlockKeepsIff(s, key, b);
      BlockAfter(s, key, b);
    }
  }

  /** What one step of a program does to its thread. */
  lemma RunEffect(s: System, key: Key, x: Content, next: Pc)
    requires key in s.threads && s.threads[key].At? && SystemStep(s, Runs(key, x, next)) != s
    ensures var At(p, pc) := s.threads[key];
            var d := SystemStep(s, Runs(key, x, next));
            var (t, reply) := RunBlock(s.client.state, key, BlockAt(pc, x));
            && d.client == Step(s.client, Op(key, BlockAt(pc, x))).0 && d.client.state == t
            && AfterBlock(p, pc, reply, next).Some?
            && d.threads == s.threads[key := AfterBlock(p, pc, reply, next).value]
  {
  }

  lemma RunKeepsOwn(s: System, key: Key, x: Content, next: Pc)
    requires SystemOk(s) && key in s.threads && s.threads[key].At?
    ensures var d := SystemStep(s, Runs(key, x, next)); d != s ==> key in d.threads && ThreadOk(d, key)
  {
    var At(p, pc) := s.threads[key];
    var d := SystemStep(s, Runs(key, x, next));
    if d != s {
      assert Real(p) && p.Family() == key.family && Belongs(p, pc) && key in s.client.owned by {
        assert ThreadOk(s, key);
      }
      RunEffect(s, key, x, next);
      BlockEnds(s.client.state, key, p, pc, x);
      OwnedStays(s.client, Op(key, BlockAt(pc, x)), key);
      if Follows(p, pc, next) {
        FollowsBelongs(p, pc, next);
      }
    }
  }

  lemma RunKeeps(s: System, key: Key, x: Content, next: Pc)
    requires SystemOk(s)
    ensures SystemOk(SystemStep(s, Runs(key, x, next)))
  {
    var d := SystemStep(s, Runs(key, x, next));
    if d != s {
      var e := Op(key, BlockAt(s.threads[key].pc, x));
      StepKeepsClient(s, e);
      RunKeepsOwn(s, key, x, next);
      forall k | k in d.threads ensures ThreadOk(d, k) {
        if k != key { ThreadStays(s, e, k, d); }
      }
    }
  }

  // ----- starting a program -----

  lemma SendStartEnds(s: State, workflow: SendReducer.Workflow, n: nat)
    requires StateOk(s) && RefusedHolding(s, StartSend(s, workflow, n), Send)
    ensures StartSend(s, workflow, n).0.snapshot.revision == U64_MAX
  {
    RefusedSendKeepsIff(s, workflow, n);
    BeginSendMove(s, workflow, n);
  }

  lemma RefreshStartEnds(s: State, view: View)
    requires StateOk(s) && RefusedHolding(s, StartRefresh(s, view), view.RefreshFamily())
    ensures StartRefresh(s, view).0.snapshot.revision == U64_MAX
  {
    RefusedRefreshKeepsIff(s, view);
    BeginRefreshMove(s, view);
  }

  lemma PageStartEnds(s: State, view: View, hasMore: bool)
    requires StateOk(s) && RefusedHolding(s, StartPage(s, view, hasMore), view.PageFamily())
    ensures StartPage(s, view, hasMore).0.snapshot.revision == U64_MAX
  {
    RefusedPageKeepsIff(s, view, hasMore);
    BeginPageMove(s, view, hasMore);
  }

  /** The state and reply of a start. */
  function StartOutcome(s: State, e: ClientEvent): (State, Reply) {
    match e
    case BeginSend(workflow, n) => StartSend(s, workflow, n)
    case BeginResolve(n) => StartResolve(s, n)
    case BeginPreview(n) => StartPreview(s, n)
    case BeginRefresh(view) => StartRefresh(s, view)
    case BeginPage(view, hasMore) => StartPage(s, view, hasMore)
    case _ => (s, Skipped)
  }

  lemma StartIsOutcome(c: Client, p: Program, e: ClientEvent)
    requires StartsBy(p, e)
    ensures (Step(c, e).0.state, Step(c, e).1) == StartOutcome(c.state, e)
  {
  }

  lemma OutcomeEnds(s: State, p: Program, e: ClientEvent)
    requires StateOk(s) && StartsBy(p, e) && RefusedHolding(s, StartOutcome(s, e), p.Family())
    ensures StartOutcome(s, e).0.snapshot.revision == U64_MAX
  {
    match e {
      case BeginSend(workflow, n) => SendStartEnds(s, workflow, n);
      case BeginResolve(n) => RefusedOtherKeepsNothing(s, n);
      case BeginPreview(n) => RefusedOtherKeepsNothing(s, n);
      case BeginRefresh(view) => RefreshStartEnds(s, view);
      case BeginPage(view, hasMore) => PageStartEnds(s, view, hasMore);
    }
  }

  lemma StartEnds(s: State, p: Program, e: ClientEvent, c: Client)
    requires StateOk(s) && StartsBy(p, e) && c.state == s
    ensures var (d, reply) := Step(c, e);
            RefusedHolding(s, (d.state, reply), p.Family()) ==> Excused(d.state, p.Family())
  {
    StartIsOutcome(c, p, e);
    if RefusedHolding(s, StartOutcome(s, e), p.Family()) {
      OutcomeEnds(s, p, e);
    }
  }

  lemma StartOwns(c: Client, p: Program, e: ClientEvent)
    requires StartsBy(p, e) && Generation(Step(c, e).0.state, p.Family()) != Generation(c.state, p.Family())
    ensures Key(p.Family(), Generation(Step(c, e).0.state, p.Family())) in Step(c, e).0.owned
  {
  }

  lemma BeginKeeps(s: System, p: Program, start: ClientEvent, first: Pc)
    requires SystemOk(s)
    ensures SystemOk(SystemStep(s, Begins(p, start, first)))
  {
    var d := SystemStep(s, Begins(p, start, first));
    if d != s {
      var f := p.Family();
      var started := Key(f, Generation(d.client.state, f));
      StepKeepsClient(s, start);
      FirstBelongs(p, first);
      forall k | k in d.threads ensures ThreadOk(d, k) {
        if k == started && Generation(d.client.state, f) != Generation(s.client.state, f) {
          StartOwns(s.client, p, start);
          StartEnds(s.client.state, p, start, s.client);
        } else {
          ThreadStays(s, start, k, d);
        }
      }
    }
  }

  // ----- the theorems -----

  lemma SystemStepOk(s: System, e: SystemEvent)
    requires SystemOk(s)
    ensures SystemOk(SystemStep(s, e))
  {
    match e {
      case Begins(p, start, first) => BeginKeeps(s, p, start, first);
      case Runs(key, content, next) => RunKeeps(s, key, content, next);
      case Calls(call) => CallKeeps(s, call);
    }
  }

  lemma {:induction false} SystemRunOk(s: System, events: seq<SystemEvent>)
    requires SystemOk(s)
    ensures SystemOk(SystemRun(s, events))
    decreases |events|
  {
    if events != [] {
      SystemStepOk(s, events[0]);
      SystemRunOk(SystemStep(s, events[0]), events[1..]);
    }
  }

  /** Over every run, however the calls interleave and whatever the provider, the
      journal, and the secret host answer: an operation that has returned, by any
      exit of its program, holds no slot, as long as revisions are left; a preview
      may hold one only while the client is closing. */
  lemma EndedReleases(snapshot: Snapshot, events: seq<SystemEvent>, key: Key)
    requires key in SystemRun(NewSystem(snapshot), events).threads
    requires SystemRun(NewSystem(snapshot), events).threads[key].Over?
    ensures var s := SystemRun(NewSystem(snapshot), events).client.state;
            IsCurrent(s, key.family, key.generation) ==>
              s.snapshot.revision == U64_MAX || (key.family == Preview && s.closing)
  {
    SystemRunOk(NewSystem(snapshot), events);
    assert ThreadOk(SystemRun(NewSystem(snapshot), events), key);
  }

  /** The blocks of one operation never take a slot from another one. */
  lemma RunLeavesOthers(s: System, key: Key, x: Content, next: Pc, other: Key)
    requires SystemOk(s) && other != key && IsCurrent(s.client.state, other.family, other.generation)
    ensures IsCurrent(SystemStep(s, Runs(key, x, next)).client.state, other.family, other.generation)
  {
    var t := RunShape(s, key, x, next);
    if t.Some? {
      BlockLeavesOthers(s.client.state, key, t.value, other);
    }
  }

  /** A program's step runs one fitting block, or nothing. */
  lemma RunShape(s: System, key: Key, x: Content, next: Pc) returns (b: Option<Block>)
    ensures b.None? ==> SystemStep(s, Runs(key, x, next)).client.state == s.client.state
    ensures b.Some? ==> Fits(key.family, b.value)
                        && SystemStep(s, Runs(key, x, next)).client.state == RunBlock(s.client.state, key, b.value).0
  {
    if key in s.threads && s.threads[key].At? && SystemStep(s, Runs(key, x, next)) != s {
      b := Some(BlockAt(s.threads[key].pc, x));
    } else {
      b := None;
    }
  }

  function RankOf(s: System, key: Key): nat {
    if key in s.threads && s.threads[key].At? then Rank(s.threads[key].pc) else 0
  }

  /** The event makes the operation run its next block. */
  predicate Moves(s: System, e: SystemEvent, key: Key) {
    e.Runs? && e.key == key && SystemStep(s, e).threads != s.threads
  }

  lemma StepRank(s: System, e: SystemEvent, key: Key)
    requires SystemOk(s) && key in s.threads
    ensures key in SystemStep(s, e).threads
    ensures RankOf(SystemStep(s, e), key) + (if Moves(s, e, key) then 1 else 0) <= RankOf(s, key)
  {
    match e {
      case Runs(k, x, next) =>
        if k == key && s.threads[key].At? {
          var At(p, pc) := s.threads[key];
          assert ThreadOk(s, key);
          RankPositive(p, pc);
          if !Last(pc) && (Follows(p, pc, next) || Cleans(p, pc)) {
            RankFalls(p, pc, if Follows(p, pc, next) then next else Discard);
            if Cleans(p, pc) { RankFalls(p, pc, Discard); }
          }
        }
      case Begins(p, start, first) =>
        assert ThreadOk(s, key) && Reserved(s.client, key);
        NewGenerationIsNew(s, p, start, key);
      case Calls(call) =>
    }
  }

  lemma RankPositive(p: Program, pc: Pc)
    ensures Rank(pc) >= 1
  {
  }

  /** A start that takes a generation takes one no thread has. */
  lemma NewGenerationIsNew(s: System, p: Program, start: ClientEvent, key: Key)
    requires SystemOk(s) && key in s.threads
    ensures var f := p.Family();
            var g := Generation(Step(s.client, start).0.state, f);
            g != Generation(s.client.state, f) ==> Key(f, g) != key
  {
    assert ThreadOk(s, key) && Reserved(s.client, key);
    GenerationsGrow(s.client, start, p.Family());
  }

  /** How often the operation moved in a run. */
  function Blocks(s: System, events: seq<SystemEvent>, key: Key): nat
    decreases |events|
  {
    if events == [] then 0
    else (if Moves(s, events[0], key) then 1 else 0) + Blocks(SystemStep(s, events[0]), events[1..], key)
  }

  /** Every operation ends: in no run does it move more often than its rank allows,
      and once it has moved that often it is over. */
  lemma {:induction false} OperationsEnd(s: System, events: seq<SystemEvent>, key: Key)
    requires SystemOk(s) && key in s.threads
    ensures Blocks(s, events, key) + RankOf(SystemRun(s, events), key) <= RankOf(s, key)
    decreases |events|
  {
    if events != [] {
      StepRank(s, events[0], key);
      SystemStepOk(s, events[0]);
      OperationsEnd(SystemStep(s, events[0]), events[1..], key);
    }
  }

  lemma NewThreadRank(s: System, e: SystemEvent, key: Key)
    requires key !in s.threads && key in SystemStep(s, e).threads
    ensures RankOf(SystemStep(s, e), key) <= MOST_BLOCKS
  {
    assert e.Begins?;
    FirstRank(e.program, e.first);
  }

  lemma {:induction false} BlocksBounded(s: System, events: seq<SystemEvent>, key: Key)
    requires SystemOk(s) && RankOf(s, key) <= MOST_BLOCKS
    ensures Blocks(s, events, key) <= MOST_BLOCKS
    decreases |events|
  {
    if key in s.threads {
      OperationsEnd(s, events, key);
    } else if events != [] {
      SystemStepOk(s, events[0]);
      if key in SystemStep(s, events[0]).threads {
        NewThreadRank(s, events[0], key);
      }
      BlocksBounded(SystemStep(s, events[0]), events[1..], key);
    }
  }

  /** No operation ever runs more than so many blocks, in any run and whatever it is
      answered. */
  lemma EveryOperationIsShort(snapshot: Snapshot, events: seq<SystemEvent>, key: Key)
    ensures Blocks(NewSystem(snapshot), events, key) <= MOST_BLOCKS
  {
    BlocksBounded(NewSystem(snapshot), events, key);
  }
}
