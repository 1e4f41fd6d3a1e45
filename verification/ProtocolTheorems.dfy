/** What the durable send protocol guarantees: each theorem quantifies over
    every run from an empty slot and, where it speaks of the future, over every
    continuation of that run. */
module ProtocolTheorems {
  import opened Basics
  import opened Journal
  import opened ResolutionRules
  import opened ChainModel
  import opened Protocol
  import opened ProtocolSafety

  ghost predicate Reachable(cfg: Config, w: World) {
    exists clock: nat, events: seq<WorldEvent> :: Run(cfg, Start(clock), events) == Some(w)
  }

  /** `v` is reached from `w` by some run. */
  ghost predicate Later(cfg: Config, w: World, v: World) {
    exists events: seq<WorldEvent> :: Run(cfg, w, events) == Some(v)
  }

  lemma {:induction false} RunKeepsInv(cfg: Config, w: World, events: seq<WorldEvent>)
    requires Inv(cfg, w) && Run(cfg, w, events).Some?
    ensures Inv(cfg, Run(cfg, w, events).value)
    decreases |events|
  {
    if events != [] {
      StepKeepsInv(cfg, w, events[0]);
      RunKeepsInv(cfg, Step(cfg, w, events[0]).value, events[1..]);
    }
  }

  lemma ReachableInv(cfg: Config, w: World)
    requires Reachable(cfg, w)
    ensures Inv(cfg, w)
  {
    var clock: nat, events: seq<WorldEvent> :| Run(cfg, Start(clock), events) == Some(w);
    assert Inv(cfg, Start(clock));
    RunKeepsInv(cfg, Start(clock), events);
  }

  /** What no step ever takes back. */
  ghost predicate Persists(cfg: Config, w: World, v: World) {
    && Grows(cfg, w, v)
    && (forall id :: id < w.spawned && id in w.tasks && w.tasks[id].Ended? && id in v.tasks ==>
          v.tasks[id] == w.tasks[id])
    && (forall id :: id < w.spawned && id !in w.tasks ==> id !in v.tasks)
    && (forall id :: id < w.spawned && (id !in w.tasks || w.tasks[id].Ended?) && id in v.handed ==> id in w.handed)
    && w.spawned <= v.spawned
  }

  lemma StepPersists(cfg: Config, w: World, e: WorldEvent)
    requires Inv(cfg, w) && Step(cfg, w, e).Some?
    ensures Persists(cfg, w, Step(cfg, w, e).value)
  {
    var v := Step(cfg, w, e).value;
    StepKeepsInv(cfg, w, e);
    if e.Clock? || e.Index? || e.Execute? {
      ChainKeepsInv(cfg, w, e);
    } else if e.Spawn? || e.Crash? || e.Outside? || e.Take? {
    } else {
      TaskStepPersists(cfg, w, e.task, e);
    }
  }

  /** What any other step of a call may change at all. */
  lemma TaskStepShape(cfg: Config, w: World, id: nat, task: Task, e: WorldEvent)
    requires !e.Swap? && TaskStep(cfg, w, id, task, e).Some?
    ensures var v := TaskStep(cfg, w, id, task, e).value;
            && id in v.tasks && v == w.(tasks := w.tasks[id := v.tasks[id]], handed := v.handed, rejected := v.rejected)
            && w.rejected <= v.rejected
            && !task.Ended?
            && (v.handed == w.handed ||
                (task.Releasing? && task.workflow.prepared.Some?
                 && v.handed == w.handed[id := task.workflow.prepared.value.message]))
  {
  }

  lemma TaskStepPersists(cfg: Config, w: World, id: nat, e: WorldEvent)
    requires Inv(cfg, w) && id in w.tasks && TaskStep(cfg, w, id, w.tasks[id], e).Some?
    ensures Persists(cfg, w, TaskStep(cfg, w, id, w.tasks[id], e).value)
  {
    if e.Swap? {
      SwapPersists(cfg, w, id, e.fault);
    } else {
      TaskStepShape(cfg, w, id, w.tasks[id], e);
      assert w.tasks[id].Releasing? ==> id !in w.handed by {
        assert TaskOk(cfg, w, id, w.tasks[id]);
      }
    }
  }

  /** What a compare and swap may change at all. */
  lemma SwapShape(w: World, id: nat, task: Task, fault: Fault)
    requires SwapStep(w, id, task, fault).Some?
    ensures var v := SwapStep(w, id, task, fault).value;
            && id in v.tasks && v == w.(tasks := w.tasks[id := v.tasks[id]], history := v.history, handed := v.handed)
            && w.history <= v.history
            && !task.Ended?
            && (v.handed == w.handed ||
                (task.Committing? && task.workflow.prepared.Some?
                 && v.handed == w.handed[id := task.workflow.prepared.value.message]))
  {
  }

  lemma SwapPersists(cfg: Config, w: World, id: nat, fault: Fault)
    requires Inv(cfg, w) && id in w.tasks && SwapStep(w, id, w.tasks[id], fault).Some?
    ensures Persists(cfg, w, SwapStep(w, id, w.tasks[id], fault).value)
  {
    SwapShape(w, id, w.tasks[id], fault);
    assert w.tasks[id].Committing? ==> id !in w.handed by {
      assert TaskOk(cfg, w, id, w.tasks[id]);
    }
  }

  lemma {:induction false} RunPersists(cfg: Config, w: World, events: seq<WorldEvent>)
    requires Inv(cfg, w) && Run(cfg, w, events).Some?
    ensures Persists(cfg, w, Run(cfg, w, events).value)
    decreases |events|
  {
    if events != [] {
      var u := Step(cfg, w, events[0]).value;
      StepKeepsInv(cfg, w, events[0]);
      StepPersists(cfg, w, events[0]);
      RunPersists(cfg, u, events[1..]);
      PersistsTransitive(cfg, w, u, Run(cfg, w, events).value);
    }
  }

  lemma PersistsTransitive(cfg: Config, w: World, u: World, v: World)
    requires Persists(cfg, w, u) && Persists(cfg, u, v)
    ensures Persists(cfg, w, v)
  {
    ExtendsTransitive(w.chain, u.chain, v.chain);
  }

  lemma LaterFacts(cfg: Config, w: World, v: World)
    requires Reachable(cfg, w) && Later(cfg, w, v)
    ensures Inv(cfg, w) && Inv(cfg, v) && Persists(cfg, w, v)
  {
    ReachableInv(cfg, w);
    var events: seq<WorldEvent> :| Run(cfg, w, events) == Some(v);
    RunKeepsInv(cfg, w, events);
    RunPersists(cfg, w, events);
  }

  // ----- the theorems -----

  /** Write-ahead: a message that left a call, towards the provider or back to
      the caller, stands in the slot history under that very call, first in the
      durable stage that precedes release. */
  lemma WriteAhead(cfg: Config, w: World, a: nat)
    requires Reachable(cfg, w) && a in w.handed
    ensures exists i :: 0 <= i < |w.history| && OpensCall(w.history, i, a, w.handed[a])
  {
    ReachableInv(cfg, w);
    var i :| 0 <= i < |w.history| && w.history[i].attempt == a
             && w.history[i].record.payload.Encoded? && Body(w.history[i]).message == w.handed[a];
    FirstRecord(cfg, w, i);
  }

  /** Record `i` is the first of its call and is the prepared message. */
  predicate OpensCall(history: seq<Write>, i: nat, a: nat, m: Message)
    requires i < |history|
  {
    && history[i].attempt == a && history[i].record.payload.Encoded?
    && Body(history[i]).message == m && Opening(Body(history[i]).stage)
    && (i > 0 ==> history[i - 1].attempt != a)
  }

  lemma {:induction false} FirstRecord(cfg: Config, w: World, i: nat)
    requires HistoryOk(cfg, w) && i < |w.history|
    ensures w.history[i].record.payload.Encoded?
    ensures exists k :: 0 <= k < |w.history|
                        && OpensCall(w.history, k, w.history[i].attempt, Body(w.history[i]).message)
  {
    assert RecordOk(cfg, w, i) && LinkOk(w.history, i);
    if i > 0 && w.history[i - 1].attempt == w.history[i].attempt {
      FirstRecord(cfg, w, i - 1);
    } else {
      assert OpensCall(w.history, i, w.history[i].attempt, Body(w.history[i]).message);
    }
  }

  /** Slot discipline: versions count the writes; settled records are never
      touched by their own call or by a resolver; an unsettled message gives way
      to another message only under an explicit override. */
  lemma SlotDiscipline(cfg: Config, w: World, i: nat)
    requires Reachable(cfg, w) && i < |w.history|
    ensures w.history[i].record.version as int == i + 1 && w.history[i].record.payload.Encoded?
    ensures Storable(Body(w.history[i]).stage)
    ensures i + 1 < |w.history| ==>
              var a, b := w.history[i], w.history[i + 1];
              && b.record.payload.Encoded?
              && (Body(a).stage.PermitsReplacement() ==> b.attempt != a.attempt && !b.forced)
              && (b.attempt != a.attempt && !b.forced ==> Body(a).stage.PermitsReplacement())
              && (b.attempt == a.attempt ==> SameMessage(Body(a), Body(b)))
              && (b.attempt == a.attempt && Body(b).stage.PermitsReplacement() ==>
                    Evidence(Body(b).stage) || (Body(b).stage == Stage.Failed && a.attempt in w.rejected))
  {
    ReachableInv(cfg, w);
    assert RecordOk(cfg, w, i);
    if i + 1 < |w.history| {
      assert RecordOk(cfg, w, i + 1) && LinkOk(w.history, i + 1);
    }
  }

  /** Fate: what a stored record says about its message is true when it is
      stored and stays true in every continuation of the run. */
  lemma FateSound(cfg: Config, w: World, v: World, i: nat)
    requires Reachable(cfg, w) && Later(cfg, w, v) && i < |w.history|
    ensures i < |v.history| && v.history[i] == w.history[i] && w.history[i].record.payload.Encoded?
    ensures var m := Body(w.history[i]).message;
            match Body(w.history[i]).stage
            case Confirmed => Executed(w.chain, m)
            case Replaced => !Executed(v.chain, m)
            case SequenceNumberConsumed => Executed(v.chain, m) <==> Executed(w.chain, m)
            case Expired => cfg.lag <= cfg.margin ==> !Executed(v.chain, m)
            case Failed => forall b :: b in v.network ==> b.source != Some(w.history[i].attempt)
            case _ => true
  {
    LaterFacts(cfg, w, v);
    assert RecordOk(cfg, w, i) && RecordOk(cfg, v, i);
    var m := Body(w.history[i]).message;
    var told := TerminalSendResolution(w.history[i].record, cfg.owner);
    if told.Success? && told.value.Some? && Sound(w.chain, m, told.value.value) {
      SoundStable(w.chain, v.chain, m, told.value.value, cfg.lag);
      if m.seqno < |w.chain.log| {
        DeadStaysDead(w.chain, v.chain, m, cfg.lag);
      }
    }
  }

  /** Released, not rejected, and still able to execute. */
  ghost predicate Outstanding(w: World, a: nat) {
    a in w.handed && a !in w.rejected && !Dead(w.chain, w.handed[a])
  }

  /** At most one outstanding message per wallet: a released message that can
      still execute is the one that holds the slot, and the slot still blocks
      new signatures; every other one was displaced by an explicit override. */
  lemma OutstandingHoldsSlot(cfg: Config, w: World, a: nat)
    requires Reachable(cfg, w) && cfg.lag <= cfg.margin && Outstanding(w, a)
    ensures || (a == SlotAttempt(w.history) && OverwritesUnsettled(w.history))
            || exists j :: 0 < j < |w.history| && w.history[j].forced && w.history[j - 1].attempt == a
  {
    ReachableInv(cfg, w);
    var k := LastOwnRecord(cfg, w, a);
    if Body(w.history[k]).stage.PermitsReplacement() {
      SettledIsNotOutstanding(cfg, w, k);
    } else {
      UnsettledGivesWay(cfg, w, k);
    }
  }

  lemma LastOwnRecord(cfg: Config, w: World, a: nat) returns (k: nat)
    requires Inv(cfg, w) && a in w.handed
    ensures k < |w.history| && w.history[k].attempt == a && w.history[k].record.payload.Encoded?
    ensures Body(w.history[k]).message == w.handed[a]
    ensures k + 1 < |w.history| ==> w.history[k + 1].attempt != a
  {
    var i :| 0 <= i < |w.history| && w.history[i].attempt == a
             && w.history[i].record.payload.Encoded? && Body(w.history[i]).message == w.handed[a];
    k := LastRecord(cfg, w, i);
  }

  /** The last record of a call, while unsettled, holds the slot or was displaced
      by an override. */
  lemma UnsettledGivesWay(cfg: Config, w: World, k: nat)
    requires HistoryOk(cfg, w) && k < |w.history| && w.history[k].record.payload.Encoded?
    requires !Body(w.history[k]).stage.PermitsReplacement()
    requires k + 1 < |w.history| ==> w.history[k + 1].attempt != w.history[k].attempt
    ensures || (k == |w.history| - 1 && OverwritesUnsettled(w.history))
            || (k + 1 < |w.history| && w.history[k + 1].forced)
  {
    if k + 1 < |w.history| {
      assert LinkOk(w.history, k + 1);
    }
  }

  /** The last record of the call that wrote record `i`. */
  lemma {:induction false} LastRecord(cfg: Config, w: World, i: nat) returns (k: nat)
    requires HistoryOk(cfg, w) && i < |w.history|
    ensures i <= k < |w.history| && w.history[k].attempt == w.history[i].attempt
    ensures k + 1 < |w.history| ==> w.history[k + 1].attempt != w.history[k].attempt
    ensures w.history[i].record.payload.Encoded? && w.history[k].record.payload.Encoded?
    ensures Body(w.history[k]).message == Body(w.history[i]).message
    decreases |w.history| - i
  {
    assert LinkOk(w.history, i);
    if i + 1 < |w.history| && w.history[i + 1].attempt == w.history[i].attempt {
      assert LinkOk(w.history, i + 1);
      k := LastRecord(cfg, w, i + 1);
    } else {
      k := i;
    }
  }

  lemma SettledIsNotOutstanding(cfg: Config, w: World, k: nat)
    requires Inv(cfg, w) && cfg.lag <= cfg.margin && k < |w.history|
    requires w.history[k].record.payload.Encoded? && Body(w.history[k]).stage.PermitsReplacement()
    ensures w.history[k].attempt in w.rejected || Dead(w.chain, Body(w.history[k]).message)
  {
    assert RecordOk(cfg, w, k);
    if Body(w.history[k]).stage == Stage.Confirmed {
      var r := TerminalSendResolution(w.history[k].record, cfg.owner).value.value;
      assert ValidEntry(w.chain.log[r.transaction.hash], r.transaction.hash, w.chain.clock);
    }
  }

  /** Without overrides no two messages of the wallet are ever outstanding at
      the same time, however many clients send, crash, and recover. */
  lemma NoTwoOutstanding(cfg: Config, w: World, a: nat, b: nat)
    requires Reachable(cfg, w) && cfg.lag <= cfg.margin
    requires forall i :: 0 <= i < |w.history| ==> !w.history[i].forced
    requires Outstanding(w, a) && Outstanding(w, b)
    ensures a == b
  {
    OutstandingHoldsSlot(cfg, w, a);
    OutstandingHoldsSlot(cfg, w, b);
  }

  /** A definite error: nothing was sent. */
  predicate Refused(outcome: Outcome) {
    outcome.DefiniteFailure? || outcome.JournalTaken? || outcome.StillBlocked?
  }

  lemma OutcomeFacts(cfg: Config, w: World, a: nat)
    requires Inv(cfg, w) && a in w.tasks && w.tasks[a].Ended?
    ensures OutcomeOk(cfg, w, a, w.tasks[a].outcome) && a < w.spawned
  {
    assert TaskOk(cfg, w, a, w.tasks[a]);
  }

  /** A call that was never released, or whose message the provider rejected,
      put nothing on the network. */
  lemma SilentCall(cfg: Config, v: World, a: nat)
    requires Inv(cfg, v) && (a !in v.handed || a in v.rejected)
    ensures forall b :: b in v.network ==> b.source != Some(a)
  {
    assert NetworkOk(v.handed, v.rejected, v.network);
  }

  /** A definite error means the message never leaves, now or in any
      continuation, and was never stored. */
  lemma DefiniteFailureMeansNoHandOff(cfg: Config, w: World, v: World, a: nat)
    requires Reachable(cfg, w) && Later(cfg, w, v) && a in w.tasks && w.tasks[a].Ended?
    requires Refused(w.tasks[a].outcome)
    ensures a !in v.handed
    ensures forall i :: 0 <= i < |w.history| ==> w.history[i].attempt != a
    ensures forall b :: b in v.network ==> b.source != Some(a)
  {
    LaterFacts(cfg, w, v);
    OutcomeFacts(cfg, w, a);
    SilentCall(cfg, v, a);
  }

  /** Once a message is released, its call can only report delivery or
      ignorance; and it reports a failed delivery only after a stored explicit
      rejection, with which the provider never forwards the message. */
  lemma ReleasedCallReports(cfg: Config, w: World, v: World, a: nat)
    requires Reachable(cfg, w) && Later(cfg, w, v) && a in w.tasks && w.tasks[a].Ended? && a in w.handed
    ensures w.tasks[a].outcome.Delivered? || w.tasks[a].outcome.OutcomeUnknown?
    ensures w.tasks[a].outcome.Delivered? && w.tasks[a].outcome.stage == Stage.Failed ==>
              && StoredFailure(w.history, a)
              && (forall b :: b in v.network ==> b.source != Some(a))
  {
    LaterFacts(cfg, w, v);
    DeliveredFacts(cfg, w, a);
    if a in w.rejected {
      SilentCall(cfg, v, a);
    }
  }

  lemma DeliveredFacts(cfg: Config, w: World, a: nat)
    requires Inv(cfg, w) && a in w.tasks && w.tasks[a].Ended? && a in w.handed
    ensures w.tasks[a].outcome.Delivered? || w.tasks[a].outcome.OutcomeUnknown?
    ensures w.tasks[a].outcome.Delivered? && w.tasks[a].outcome.stage == Stage.Failed ==>
              StoredFailure(w.history, a) && a in w.rejected
  {
    OutcomeFacts(cfg, w, a);
    if w.tasks[a].outcome.Delivered? && w.tasks[a].outcome.stage == Stage.Failed {
      FailedRecordWasRejected(cfg, w, w.tasks[a].outcome.version - 1);
    }
  }

  lemma FailedRecordWasRejected(cfg: Config, w: World, i: nat)
    requires Inv(cfg, w) && i < |w.history|
    requires w.history[i].record.payload.Encoded? && Body(w.history[i]).stage == Stage.Failed
    ensures w.history[i].attempt in w.rejected
  {
    assert RecordOk(cfg, w, i);
  }

  ghost predicate StoredFailure(history: seq<Write>, a: nat) {
    exists i :: 0 <= i < |history| && history[i].attempt == a
                && history[i].record.payload.Encoded? && Body(history[i]).stage == Stage.Failed
  }

  /** A recovery call reports a record the slot really held, and what it reports
      holds for that record's message. It holds for the message the call set out
      to resolve whenever the report transfers from the one to the other; by
      `TransferIff` no weaker comparison of the two records would do. */
  lemma RecoveryReport(cfg: Config, w: World, a: nat)
    requires Reachable(cfg, w) && a in w.tasks && w.tasks[a].Ended? && w.tasks[a].outcome.Settled?
    ensures var Settled(p, r, journal) := w.tasks[a].outcome;
            && At(w.history, p.journal) && At(w.history, journal) && journal.payload.Encoded?
            && Holds(w.chain, journal.payload.record.message, r, cfg.margin, cfg.lag)
            && (Transfers(journal.payload.record.message, p.durable.message, r) ==>
                  Holds(w.chain, p.durable.message, r, cfg.margin, cfg.lag))
            && (w.history[journal.version - 1].attempt == w.history[p.journal.version - 1].attempt ==>
                  journal.payload.record.message == p.durable.message)
  {
    ReachableInv(cfg, w);
    assert TaskOk(cfg, w, a, w.tasks[a]);
    var Settled(p, r, journal) := w.tasks[a].outcome;
    var i, j := p.journal.version as int - 1, journal.version as int - 1;
    assert RecordOk(cfg, w, j) && RecordOk(cfg, w, i);
    if w.history[i].attempt == w.history[j].attempt {
      SameCallSameMessage(cfg, w, i, j);
    }
    var m := journal.payload.record.message;
    if Transfers(m, p.durable.message, r) && Sound(w.chain, m, r) {
      TransferHolds(m, p.durable.message, r, w.chain, cfg.lag);
    }
  }

  lemma SameCallSameMessage(cfg: Config, w: World, i: nat, j: nat)
    requires HistoryOk(cfg, w) && i < |w.history| && j < |w.history|
    requires w.history[i].attempt == w.history[j].attempt
    ensures w.history[i].record.payload.Encoded? && w.history[j].record.payload.Encoded?
    ensures Body(w.history[i]).message == Body(w.history[j]).message
    decreases if i < j then j - i else i - j
  {
    assert LinkOk(w.history, i) && LinkOk(w.history, j);
    if i < j {
      SameCallSameMessage(cfg, w, i, j - 1);
    } else if j < i {
      SameCallSameMessage(cfg, w, i - 1, j);
    }
  }
}
