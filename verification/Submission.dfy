/** `submit_prepared_send` as the engine runs it: the mutable reducer decides, the
    journal, the provider, and everybody else act between its awaits. Every run of
    the method is a run of the protocol (src/engine/send.rs). */
module SubmissionDriver {
  import opened Basics
  import opened Journal
  import opened SendReducer
  import opened ResolutionRules
  import opened Protocol
  import ProtocolTheorems

  /** An event of somebody other than call `id`. */
  predicate Foreign(e: WorldEvent, id: nat) {
    match e
    case Clock(_) => true
    case Index(_) => true
    case Execute(_, _) => true
    case Outside(_) => true
    case Take(_) => true
    case Spawn(_) => true
    case _ => e.task != id
  }

  /** Reducer and account check before the transfer is prepared. */
  function ReadyToSign(start: Workflow, account: FreshAccount): Reduced {
    var loaded := if start.hasSecret then LoadedFreshAccount(start, account) else LoadedPreparedAccount(start, account);
    if loaded.answer.Failure? || !start.hasSecret then loaded else Authorized(loaded.workflow)
  }

  lemma ForeignKeepsTask(cfg: Config, w: World, e: WorldEvent, id: nat)
    requires id in w.tasks && id < w.spawned && Foreign(e, id) && Step(cfg, w, e).Some?
    ensures var v := Step(cfg, w, e).value;
            id in v.tasks && v.tasks[id] == w.tasks[id] && w.spawned <= v.spawned && (id in w.handed ==> id in v.handed)
  {
  }

  lemma {:induction false} RunLonger(cfg: Config, w: World, events: seq<WorldEvent>, e: WorldEvent)
    requires Run(cfg, w, events).Some?
    ensures Run(cfg, w, events + [e]) == Step(cfg, Run(cfg, w, events).value, e)
    decreases |events|
  {
    if events == [] {
      assert events + [e] == [e] && [e][1..] == [];
      var next := Step(cfg, w, e);
      assert next.Some? ==> Run(cfg, next.value, []) == next;
    } else {
      assert (events + [e])[1..] == events[1..] + [e];
      RunLonger(cfg, Step(cfg, w, events[0]).value, events[1..], e);
    }
  }

  lemma SubmitHasMessage(wf: Workflow, result: CasResult)
    requires PersistedJournal(wf, result).answer.Success? && PersistedJournal(wf, result).answer.value.Submit?
    ensures wf.prepared.Some?
  {
  }

  /** The world once the commit's answer was taken in. */
  function CommittedWorld(stored: World, id: nat, wf: Workflow, next: Task): World {
    var put := Protocol.Put(stored, id, next);
    if next.Ended? && next.outcome.Delivered? && wf.prepared.Some?
    then put.(handed := stored.handed[id := wf.prepared.value.message])
    else put
  }

  lemma CommitStepIs(cfg: Config, w: World, id: nat, wf: Workflow, mutation: Mutation)
    requires id in w.tasks && w.tasks[id] == Committing(wf, mutation)
    ensures var (history, result) := Store(w.history, mutation, id, OverwritesUnsettled(w.history));
            Step(cfg, w, Swap(id, Works))
            == Some(CommittedWorld(w.(history := history), id, wf, AfterCommit(wf, result)))
  {
  }

  /** The world once the provider's answer was taken in. */
  function AnsweredWorld(w: World, id: nat, wf: Workflow, reply: Reply): World {
    var put := Protocol.Put(w, id, AfterReply(wf, reply));
    if reply.Rejected? then put.(rejected := w.rejected + {id}) else put
  }

  lemma AnswerStepIs(cfg: Config, w: World, id: nat, wf: Workflow, response: SendResponse)
    requires id in w.tasks && w.tasks[id] == InFlight(wf) && id in w.handed
    requires ClassifyResponse(response).Rejected? ==> Broadcast(w.handed[id], Some(id)) !in w.network
    ensures Step(cfg, w, WorldEvent.Answer(id, response)) == Some(AnsweredWorld(w, id, wf, ClassifyResponse(response)))
  {
  }

  lemma CloseStepIs(cfg: Config, w: World, id: nat, wf: Workflow, mutation: Mutation)
    requires id in w.tasks && w.tasks[id] == Closing(wf, mutation)
    ensures var (history, result) := Store(w.history, mutation, id, false);
            Step(cfg, w, Swap(id, Works)) == Some(Protocol.Put(w.(history := history), id, AfterClose(wf, result)))
  {
  }

  class Engine {
    const cfg: Config
    var w: World

    constructor (config: Config, world: World)
      ensures cfg == config && w == world
    {
      cfg, w := config, world;
    }

    /** Call `id` is running. */
    ghost predicate Owns(id: nat)
      reads this
    {
      id in w.tasks && id < w.spawned
    }

    /** While the call awaits, others run whatever of these events is possible. */
    method Others(id: nat, events: seq<WorldEvent>) returns (ghost ran: seq<WorldEvent>)
      requires Owns(id)
      modifies this`w
      ensures Owns(id) && w.tasks[id] == old(w).tasks[id] && (id in old(w).handed ==> id in w.handed)
      ensures Run(cfg, old(w), ran) == Some(w)
    {
      ran := [];
      for i := 0 to |events|
        invariant Owns(id) && w.tasks[id] == old(w).tasks[id] && (id in old(w).handed ==> id in w.handed)
        invariant Run(cfg, old(w), ran) == Some(w)
      {
        var next := Step(cfg, w, events[i]);
        if Foreign(events[i], id) && next.Some? {
          ForeignKeepsTask(cfg, w, events[i], id);
          RunLonger(cfg, old(w), ran, events[i]);
          w := next.value;
          ran := ran + [events[i]];
        }
      }
    }

    /** Records where the call stands. */
    method Put(id: nat, task: Task)
      modifies this`w
      ensures w == Protocol.Put(old(w), id, task)
    {
      w := w.(tasks := w.tasks[id := task]);
    }

    /** The reducer accepts the transfer or the call fails. */
    method Sign(id: nat, workflow: SendWorkflow, ghost start: Workflow, ghost account: FreshAccount, prepared: Prepared)
      returns (mutation: Option<Mutation>)
      requires Owns(id) && w.tasks[id] == Unlocked(start)
      requires ReadyToSign(start, account) == Reduced(workflow.View(), ReadyToSign(start, account).answer)
      requires ReadyToSign(start, account).answer.Success?
      modifies this`w, workflow`stage, workflow`prepared
      ensures Owns(id) && Step(cfg, old(w), WorldEvent.Sign(id, account, prepared)) == Some(w)
      ensures mutation.None? ==> w.tasks[id] == Ended(DefiniteFailure)
      ensures mutation.Some? ==> w.tasks[id] == Committing(workflow.View(), mutation.value)
    {
      var answer := workflow.TransferWasPrepared(prepared);
      if answer.Failure? || !answer.value.PersistJournal? {
        Put(id, Ended(DefiniteFailure));
        mutation := None;
      } else {
        Put(id, Committing(workflow.View(), answer.value.mutation));
        mutation := Some(answer.value.mutation);
      }
    }

    /** The durable commit: compare and swap, then the reducer's release. */
    method Commit(id: nat, workflow: SendWorkflow, mutation: Mutation, fault: Fault) returns (outcome: Option<Outcome>)
      requires Owns(id) && w.tasks[id] == Committing(workflow.View(), mutation)
      modifies this`w, workflow`stage, workflow`journalVersion, workflow`diagnostic
      ensures Owns(id) && Step(cfg, old(w), Swap(id, fault)) == Some(w)
      ensures outcome.Some? ==> w.tasks[id] == Ended(outcome.value)
      ensures outcome.None? ==> w.tasks[id] == Releasing(workflow.View()) && workflow.prepared.Some?
    {
      if fault == FailsBefore {
        Put(id, Ended(OutcomeUnknown));
        return Some(OutcomeUnknown);
      }
      ghost var world, before := w, workflow.View();
      var forced := OverwritesUnsettled(w.history);
      var (history, result) := Store(w.history, mutation, id, forced);
      w := w.(history := history);
      if fault == FailsAfter {
        Put(id, Ended(OutcomeUnknown));
        return Some(OutcomeUnknown);
      }
      CommitStepIs(cfg, world, id, before, mutation);
      outcome := Released(id, workflow, result);
    }

    /** After the compare and swap: release, hand-off, or report. */
    method Released(id: nat, workflow: SendWorkflow, result: CasResult) returns (outcome: Option<Outcome>)
      requires Owns(id)
      modifies this`w, workflow`stage, workflow`journalVersion, workflow`diagnostic
      ensures Owns(id) && w == CommittedWorld(old(w), id, old(workflow.View()), AfterCommit(old(workflow.View()), result))
      ensures outcome.Some? ==> AfterCommit(old(workflow.View()), result) == Ended(outcome.value)
      ensures outcome.None? ==> AfterCommit(old(workflow.View()), result) == Task.Releasing(workflow.View())
      ensures outcome.None? ==> workflow.prepared.Some?
    {
      var answer := workflow.JournalWasPersisted(result);
      if answer.Failure? {
        outcome := Some(if result.applied then OutcomeUnknown
                        else if answer.error == Conflicting then JournalTaken else DefiniteFailure);
        Put(id, Ended(outcome.value));
      } else if answer.value.HandOff? {
        outcome := Some(Delivered(HandedOff, workflow.journalVersion.GetOr(0)));
        if workflow.prepared.Some? {
          w := w.(handed := w.handed[id := workflow.prepared.value.message]);
        }
        Put(id, Ended(outcome.value));
      } else if answer.value.Submit? {
        SubmitHasMessage(old(workflow.View()), result);
        var ok := workflow.ApplyEvent(SubmissionStarted);
        outcome := if ok then None else Some(OutcomeUnknown);
        Put(id, if ok then Task.Releasing(workflow.View()) else Ended(OutcomeUnknown));
      } else {
        outcome := Some(OutcomeUnknown);
        Put(id, Ended(OutcomeUnknown));
      }
    }

    /** The message leaves for the provider. */
    method Release(id: nat, workflow: SendWorkflow)
      requires Owns(id) && w.tasks[id] == Releasing(workflow.View()) && workflow.prepared.Some?
      modifies this`w
      ensures Owns(id) && Step(cfg, old(w), WorldEvent.Release(id)) == Some(w)
      ensures w.tasks[id] == InFlight(workflow.View()) && id in w.handed
    {
      w := w.(handed := w.handed[id := workflow.prepared.value.message]);
      Put(id, InFlight(workflow.View()));
    }

    /** A provider that forwarded the message does not reject it. */
    method Provider(id: nat, response: SendResponse) returns (actual: SendResponse)
      requires id in w.handed
      ensures ClassifyResponse(actual).Rejected? ==> Broadcast(w.handed[id], Some(id)) !in w.network
    {
      if ClassifyResponse(response).Rejected? && Broadcast(w.handed[id], Some(id)) in w.network {
        actual := Malformed;
      } else {
        actual := response;
      }
    }

    /** The provider's answer becomes the terminal record to write. */
    method Answer(id: nat, workflow: SendWorkflow, response: SendResponse) returns (mutation: Option<Mutation>)
      requires Owns(id) && w.tasks[id] == InFlight(workflow.View()) && id in w.handed
      requires ClassifyResponse(response).Rejected? ==> Broadcast(w.handed[id], Some(id)) !in w.network
      modifies this`w, workflow`stage, workflow`diagnostic
      ensures Owns(id) && Step(cfg, old(w), WorldEvent.Answer(id, response)) == Some(w)
      ensures mutation.None? ==> w.tasks[id] == Ended(OutcomeUnknown)
      ensures mutation.Some? ==> w.tasks[id] == Closing(workflow.View(), mutation.value)
    {
      AnswerStepIs(cfg, w, id, workflow.View(), response);
      mutation := Replied(id, workflow, ClassifyResponse(response));
    }

    /** The reducer takes the answer in. */
    method Replied(id: nat, workflow: SendWorkflow, reply: Reply) returns (mutation: Option<Mutation>)
      requires Owns(id)
      modifies this`w, workflow`stage, workflow`diagnostic
      ensures Owns(id) && w == AnsweredWorld(old(w), id, old(workflow.View()), reply)
      ensures mutation.None? ==> w.tasks[id] == Ended(OutcomeUnknown)
      ensures mutation.Some? ==> w.tasks[id] == Closing(workflow.View(), mutation.value)
    {
      var answer := workflow.SubmissionReplied(reply);
      if reply.Rejected? {
        w := w.(rejected := w.rejected + {id});
      }
      if answer.Failure? || !answer.value.PersistJournal? {
        Put(id, Ended(OutcomeUnknown));
        mutation := None;
      } else {
        Put(id, Closing(workflow.View(), answer.value.mutation));
        mutation := Some(answer.value.mutation);
      }
    }

    /** The terminal record is written and the call reports. */
    method Close(id: nat, workflow: SendWorkflow, mutation: Mutation, fault: Fault) returns (outcome: Outcome)
      requires Owns(id) && w.tasks[id] == Closing(workflow.View(), mutation)
      modifies this`w, workflow`stage, workflow`journalVersion, workflow`diagnostic
      ensures Owns(id) && Step(cfg, old(w), Swap(id, fault)) == Some(w) && w.tasks[id] == Ended(outcome)
    {
      if fault == FailsBefore {
        Put(id, Ended(OutcomeUnknown));
        return OutcomeUnknown;
      }
      ghost var world := w;
      var (history, result) := Store(w.history, mutation, id, false);
      w := w.(history := history);
      if fault == FailsAfter {
        Put(id, Ended(OutcomeUnknown));
        return OutcomeUnknown;
      }
      CloseStepIs(cfg, world, id, workflow.View(), mutation);
      outcome := Closed(id, workflow, result);
    }

    /** After the terminal write: report what the reducer says. */
    method Closed(id: nat, workflow: SendWorkflow, result: CasResult) returns (outcome: Outcome)
      requires Owns(id)
      modifies this`w, workflow`stage, workflow`journalVersion, workflow`diagnostic
      ensures Owns(id) && w == Protocol.Put(old(w), id, Ended(outcome))
      ensures AfterClose(old(workflow.View()), result) == Ended(outcome)
    {
      var answer := workflow.JournalWasPersisted(result);
      outcome := if answer.Failure? then OutcomeUnknown
                 else Delivered(workflow.stage, workflow.journalVersion.GetOr(0));
      Put(id, Ended(outcome));
    }
  }

  lemma {:induction false} RunConcat(cfg: Config, w: World, first: seq<WorldEvent>, second: seq<WorldEvent>)
    requires Run(cfg, w, first).Some?
    ensures Run(cfg, w, first + second) == Run(cfg, Run(cfg, w, first).value, second)
    decreases |first|
  {
    if first == [] {
      assert first + second == second;
    } else {
      assert (first + second)[1..] == first[1..] + second;
      RunConcat(cfg, Step(cfg, w, first[0]).value, first[1..], second);
    }
  }

  /** A trace extended by what others ran and by one step of the call itself. */
  lemma Extended(cfg: Config, w: World, trace: seq<WorldEvent>, ran: seq<WorldEvent>, e: WorldEvent, u: World, v: World)
    requires Run(cfg, w, trace).Some? && Run(cfg, Run(cfg, w, trace).value, ran) == Some(u) && Step(cfg, u, e) == Some(v)
    ensures Run(cfg, w, trace + ran + [e]) == Some(v)
  {
    RunConcat(cfg, w, trace, ran);
    RunLonger(cfg, w, trace + ran, e);
  }

  /** From the release of the message to the report. */
  method Deliver(engine: Engine, id: nat, workflow: SendWorkflow, others: seq<seq<WorldEvent>>,
                 response: SendResponse, closeFault: Fault)
    returns (outcome: Outcome, ghost trace: seq<WorldEvent>)
    requires engine.Owns(id) && engine.w.tasks[id] == Task.Releasing(workflow.View()) && workflow.prepared.Some?
    requires |others| == 2
    modifies engine`w, workflow`stage, workflow`journalVersion, workflow`diagnostic
    ensures engine.Owns(id) && engine.w.tasks[id] == Ended(outcome)
    ensures Run(engine.cfg, old(engine.w), trace) == Some(engine.w)
  {
    ghost var cfg, first := engine.cfg, engine.w;
    engine.Release(id, workflow);
    RunLonger(cfg, first, [], WorldEvent.Release(id));
    trace := [] + [WorldEvent.Release(id)];
    ghost var ran := engine.Others(id, others[0]);
    ghost var u := engine.w;
    var actual := engine.Provider(id, response);
    var closing := engine.Answer(id, workflow, actual);
    Extended(cfg, first, trace, ran, WorldEvent.Answer(id, actual), u, engine.w);
    trace := trace + ran + [WorldEvent.Answer(id, actual)];
    if closing.None? {
      return OutcomeUnknown, trace;
    }
    ran := engine.Others(id, others[1]);
    u := engine.w;
    outcome := engine.Close(id, workflow, closing.value, closeFault);
    Extended(cfg, first, trace, ran, Swap(id, closeFault), u, engine.w);
    trace := trace + ran + [Swap(id, closeFault)];
  }

  /** The whole submission, with anything others do before each of its steps. It is
      a run of the protocol that ends with the reported outcome, so all that is
      proved of reachable protocol states holds of what the method leaves. */
  method SubmitPreparedSend(engine: Engine, id: nat, workflow: SendWorkflow, ghost start: Workflow,
                            ghost account: FreshAccount, prepared: Prepared, others: seq<seq<WorldEvent>>,
                            commitFault: Fault, response: SendResponse, closeFault: Fault)
    returns (outcome: Outcome, ghost trace: seq<WorldEvent>)
    requires engine.Owns(id) && engine.w.tasks[id] == Unlocked(start) && |others| == 4
    requires ReadyToSign(start, account) == Reduced(workflow.View(), ReadyToSign(start, account).answer)
    requires ReadyToSign(start, account).answer.Success?
    modifies engine`w, workflow`stage, workflow`prepared, workflow`journalVersion, workflow`diagnostic
    ensures engine.Owns(id) && engine.w.tasks[id] == Ended(outcome)
    ensures Run(engine.cfg, old(engine.w), trace) == Some(engine.w)
  {
    ghost var cfg, first := engine.cfg, engine.w;
    var mutation := engine.Sign(id, workflow, start, account, prepared);
    RunLonger(cfg, first, [], WorldEvent.Sign(id, account, prepared));
    trace := [] + [WorldEvent.Sign(id, account, prepared)];
    if mutation.None? {
      return DefiniteFailure, trace;
    }
    ghost var ran := engine.Others(id, others[0]);
    ghost var u := engine.w;
    var ended := engine.Commit(id, workflow, mutation.value, commitFault);
    Extended(cfg, first, trace, ran, Swap(id, commitFault), u, engine.w);
    trace := trace + ran + [Swap(id, commitFault)];
    if ended.Some? {
      return ended.value, trace;
    }
    ran := engine.Others(id, others[1]);
    RunConcat(cfg, first, trace, ran);
    trace := trace + ran;
    ghost var rest;
    outcome, rest := Deliver(engine, id, workflow, others[2..], response, closeFault);
    RunConcat(cfg, first, trace, rest);
    trace := trace + rest;
  }

  /** What the method's report means, from the protocol's theorems: a refusal means
      the message never leaves and was never stored, a delivery was stored first,
      and a failed delivery was rejected by the provider. */
  lemma ReportMeans(cfg: Config, w: World, trace: seq<WorldEvent>, v: World, id: nat, outcome: Outcome)
    requires ProtocolTheorems.Reachable(cfg, w) && Run(cfg, w, trace) == Some(v)
    requires id in v.tasks && v.tasks[id] == Ended(outcome)
    ensures ProtocolTheorems.Reachable(cfg, v)
    ensures ProtocolTheorems.Refused(outcome) ==>
              id !in v.handed && forall i :: 0 <= i < |v.history| ==> v.history[i].attempt != id
    ensures id in v.handed ==>
              && (outcome.Delivered? || outcome.OutcomeUnknown?)
              && (exists i :: 0 <= i < |v.history| && ProtocolTheorems.OpensCall(v.history, i, id, v.handed[id]))
              && (outcome.Delivered? && outcome.stage == Stage.Failed ==>
                    ProtocolTheorems.StoredFailure(v.history, id) && forall b :: b in v.network ==> b.source != Some(id))
  {
    assert ProtocolTheorems.Reachable(cfg, v) by {
      var clock: nat, before: seq<WorldEvent> :| Run(cfg, Protocol.Start(clock), before) == Some(w);
      RunConcat(cfg, Protocol.Start(clock), before, trace);
      assert Run(cfg, Protocol.Start(clock), before + trace) == Some(v);
    }
    assert Run(cfg, v, []) == Some(v);
    assert ProtocolTheorems.Later(cfg, v, v);
    if ProtocolTheorems.Refused(outcome) {
      ProtocolTheorems.DefiniteFailureMeansNoHandOff(cfg, v, v, id);
    }
    if id in v.handed {
      ProtocolTheorems.WriteAhead(cfg, v, id);
      ProtocolTheorems.ReleasedCallReports(cfg, v, v, id);
    }
  }
}
