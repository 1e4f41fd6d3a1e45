/** The client's state as the engine updates it, field by field under the mutex.
    Each method is proved to move the whole state as its specification function
    in `ClientModel` says; the guarantees over runs are proved of those. */
module WalletClientState {
  import opened Basics
  import SendReducer
  import opened ClientModel

  class WalletClient {
    var snapshot: Snapshot
    var nextId: u64
    var generations: map<Family, u64>
    var active: map<Family, Slot>
    var commitStarted: bool
    var workflow: Option<SendReducer.Workflow>
    var waiters: seq<Waiter>
    var woken: set<nat>
    var dropped: set<nat>
    var shutdown: bool
    var closing: bool

    function View(): State
      reads this
    {
      State(snapshot, nextId, generations, active, commitStarted, workflow, waiters, woken, dropped, shutdown, closing)
    }

    constructor (initial: Snapshot)
      ensures View() == State(initial.(revision := 0), 1, map[], map[], false, None, [], {}, {}, false, false)
    {
      snapshot := initial.(revision := 0);
      nextId := 1;
      generations, active := map[], map[];
      commitStarted, workflow := false, None;
      waiters, woken, dropped := [], {}, {};
      shutdown, closing := false, false;
    }

    method AllocateRequestId() returns (id: Option<u64>)
      modifies this`nextId
      ensures View() == Allocate(old(View()), 1).0
      ensures id == (match Allocate(old(View()), 1).1 case None => None case Some(ids) => Some(ids[0]))
    {
      var current := nextId;
      match CheckedIncrement(nextId) {
        case None => id := None;
        case Some(next) =>
          nextId := next;
          id := Some(current);
      }
      ghost var before := old(View());
      assert Allocate(before.(nextId := nextId), 0) == (before.(nextId := nextId), Some([]));
    }

    /** Reserves `n` numbers one by one and stops at the first failure. */
    method AllocateRequestIds(n: nat) returns (ids: Option<seq<u64>>)
      modifies this`nextId
      ensures View() == Allocate(old(View()), n).0
      ensures ids == Allocate(old(View()), n).1
    {
      ghost var before := View();
      var taken: seq<u64> := [];
      for i := 0 to n
        invariant |taken| == i && before.nextId + i <= U64_MAX && nextId as int == before.nextId + i
        invariant forall k :: 0 <= k < i ==> taken[k] as int == before.nextId + k
        invariant View() == before.(nextId := nextId)
      {
        var id := AllocateRequestId();
        if id.None? {
          ExhaustedAllocation(before, n);
          return None;
        }
        taken := taken + [id.value];
      }
      ids := Some(taken);
      assert Allocate(before, n).1.value == taken;
    }

    /** Publishes a revision: drains the listeners, signals those it passes, and
        puts the others back in order. */
    method NextRevision() returns (ok: bool)
      modifies this`snapshot, this`waiters, this`woken
      ensures (View(), ok) == ClientModel.NextRevision(old(View()))
    {
      match CheckedIncrement(snapshot.revision) {
        case None => return false;
        case Some(next) => snapshot := snapshot.(revision := next);
      }
      var revision := snapshot.revision;
      var drained := waiters;
      var pending: seq<Waiter> := [];
      for i := 0 to |drained|
        invariant pending == StillWaiting(drained[..i], revision)
        invariant woken == old(woken) + Signalled(drained[..i], revision)
        invariant waiters == drained && snapshot == old(snapshot).(revision := revision)
      {
        assert drained[..i + 1][..i] == drained[..i];
        if revision > drained[i].after {
          woken := woken + {drained[i].channel};
        } else {
          pending := pending + [drained[i]];
        }
        assert Signalled(drained[..i + 1], revision)
            == Signalled(drained[..i], revision)
             + (if revision > drained[i].after then {drained[i].channel} else {}) by {
          SignalledGrows(drained, i, revision);
        }
      }
      assert drained[..|drained|] == drained;
      waiters := pending;
      ok := true;
    }

    /** Takes the send slot: `send` and `send_boc` reserve seven numbers. */
    method StartSend(next: SendReducer.Workflow, requests: nat) returns (reply: Reply)
      modifies this
      ensures (View(), reply) == ClientModel.StartSend(old(View()), next, requests)
    {
      if closing || shutdown {
        return Denied(ShuttingDown);
      }
      if Send in active || Resolve in active {
        return Denied(InProgress);
      }
      var generation := CheckedIncrement(if Send in generations then generations[Send] else 0);
      if generation.None? {
        return Denied(Exhausted);
      }
      generations := generations[Send := generation.value];
      var ids := AllocateRequestIds(requests);
      if ids.None? {
        return Denied(Exhausted);
      }
      ghost var reserved := View();
      active := active[Send := Slot(generation.value, [])];
      commitStarted := false;
      snapshot := snapshot.(send := ViewOf(next));
      workflow := Some(next);
      assert View() == SetSend(Occupy(reserved, Send, []), ViewOf(next)).(
        commitStarted := false, workflow := Some(next));
      var ok := NextRevision();
      reply := if ok then Started(generation.value, ids.value) else Denied(Exhausted);
    }

    /** `fail_send` and `mark_send_unknown`. */
    method EndSend(generation: u64, phase: SendPhase, message: string) returns (reply: Reply)
      modifies this
      ensures (View(), reply) == ClientModel.EndSend(old(View()), generation, phase, message)
    {
      if Send in active && active[Send].generation == generation {
        active := active - {Send};
        commitStarted := false;
        snapshot := snapshot.(send := snapshot.send.(phase := phase, error := Some(message)));
        var ok := NextRevision();
        if !ok {
          return Denied(Exhausted);
        }
      }
      reply := Done;
    }

    method BlockSendForPending(generation: u64, view: SendView) returns (reply: Reply)
      modifies this
      ensures (View(), reply) == BlockSend(old(View()), generation, view)
    {
      if !(Send in active && active[Send].generation == generation) {
        return Denied(Unavailable);
      }
      active := active - {Send};
      commitStarted := false;
      workflow := None;
      snapshot := snapshot.(send := view);
      var ok := NextRevision();
      reply := if ok then Done else Denied(Exhausted);
    }

    method BeginSendCommit(generation: u64) returns (reply: Reply)
      modifies this`commitStarted
      ensures (View(), reply) == BeginCommit(old(View()), generation)
    {
      if shutdown {
        return Denied(ShuttingDown);
      }
      if !(Send in active && active[Send].generation == generation) {
        return Denied(Unavailable);
      }
      commitStarted := true;
      reply := Done;
    }

    method FinishSend(generation: u64, final: SendReducer.Workflow) returns (reply: Reply)
      modifies this
      ensures (View(), reply) == ClientModel.FinishSend(old(View()), generation, final)
    {
      if Send in active && active[Send].generation == generation {
        snapshot := snapshot.(send := ViewOf(final));
        workflow := Some(final);
        active := active - {Send};
        commitStarted := false;
        var ok := NextRevision();
        if !ok {
          return Denied(Exhausted);
        }
      }
      reply := Done;
    }

    method CancelSend() returns (reply: Reply)
      modifies this
      ensures (View(), reply) == ClientModel.CancelSend(old(View()))
    {
      if Send in active && commitStarted {
        return Denied(TooLate);
      }
      var taken := if Send in active then Some(active[Send].ids) else None;
      active := active - {Send};
      commitStarted := false;
      if taken.None? {
        assert active == old(active);
        return Cancelling([]);
      }
      if workflow.Some? {
        var cancelled := SendReducer.CancelledSend(workflow.value).workflow;
        snapshot := snapshot.(send := ViewOf(cancelled));
        workflow := Some(cancelled);
      }
      snapshot := snapshot.(send := snapshot.send.(phase := SendPhase.Cancelled));
      var ok := NextRevision();
      reply := if ok then Cancelling(taken.value) else Denied(Exhausted);
    }

    /** `start_send_request` and its resolution and preview counterparts. */
    method StartRequest(family: Family, generation: u64, id: u64) returns (reply: Reply)
      modifies this`active
      ensures (View(), reply) == Track(old(View()), family, generation, id)
    {
      if (family == Send && shutdown) || (family == Preview && (closing || shutdown)) {
        return Denied(ShuttingDown);
      }
      if !(family in active && active[family].generation == generation) {
        return Denied(Unavailable);
      }
      active := active[family := Slot(generation, active[family].ids + [id])];
      reply := Done;
    }

    /** `finish_send_request` and its counterparts: keeps every other number. */
    method FinishRequest(family: Family, generation: u64, id: u64) returns (reply: Reply)
      modifies this`active
      ensures (View(), reply) == Untrack(old(View()), family, generation, id)
    {
      if (family == Send && shutdown) || (family == Preview && (closing || shutdown)) {
        return Denied(ShuttingDown);
      }
      if !(family in active && active[family].generation == generation) {
        return Denied(Unavailable);
      }
      var ids := active[family].ids;
      var kept: seq<u64> := [];
      for i := 0 to |ids|
        invariant kept == Without(ids[..i], id)
        invariant active == old(active)
      {
        assert ids[..i + 1][..i] == ids[..i];
        if ids[i] != id {
          kept := kept + [ids[i]];
        }
      }
      assert ids[..|ids|] == ids;
      active := active[family := Slot(generation, kept)];
      reply := Done;
    }

    method CompleteStandaloneResolution(generation: u64, view: Option<SendView>) returns (reply: Reply)
      modifies this
      ensures (View(), reply) == CompleteResolve(old(View()), generation, view)
    {
      if !(Resolve in active && active[Resolve].generation == generation) {
        return Denied(Unavailable);
      }
      active := active - {Resolve};
      if view.Some? && snapshot.send != view.value {
        snapshot := snapshot.(send := view.value);
        var ok := NextRevision();
        if !ok {
          return Denied(Exhausted);
        }
      }
      reply := Done;
    }

    method WaitForChange(after: u64, channel: nat) returns (reply: Reply)
      modifies this`waiters
      ensures (View(), reply) == Wait(old(View()), after, channel)
    {
      if closing || shutdown {
        return Denied(ShuttingDown);
      }
      if snapshot.revision > after {
        return Done;
      }
      waiters := waiters + [Waiter(after, channel)];
      reply := Waiting;
    }

    method MarkLoadingCancelled(r: Resource)
      modifies this`snapshot
      ensures View() == CancelLoading(old(View()), r)
    {
      if r in snapshot.resources && snapshot.resources[r] == ResourceLoading {
        snapshot := snapshot.(resources := snapshot.resources[r := ResourceIdle]);
      }
    }

    /** Takes the list loads down one family after the other and returns their requests. */
    method TakeLoads() returns (requests: seq<u64>)
      modifies this`snapshot
      ensures View() == LoadsDown(old(View()))
      ensures requests == RequestsOf(old(View()), Refresh) + RequestsOf(old(View()), Pagination)
                          + RequestsOf(old(View()), NftRefresh) + RequestsOf(old(View()), NftPagination)
    {
      requests := RequestsOf(View(), Refresh);
      if Refresh in active {
        MarkLoadingCancelled(Account);
        MarkLoadingCancelled(Activity);
      }
      requests := requests + RequestsOf(View(), Pagination);
      if Pagination in active {
        snapshot := snapshot.(resources := snapshot.resources[ActivityPage := ResourceIdle]);
      }
      requests := requests + RequestsOf(View(), NftRefresh);
      if NftRefresh in active {
        MarkLoadingCancelled(Nfts);
      }
      requests := requests + RequestsOf(View(), NftPagination);
      if NftPagination in active {
        snapshot := snapshot.(resources := snapshot.resources[NftPage := ResourceIdle]);
      }
    }

    /** Shows the active send, if any, as cancelled. */
    method TakeSend()
      modifies this`snapshot, this`workflow
      ensures View() == if Send in old(active)
                        then CancelWorkflow(SetSend(old(View()), CancelledView(old(View())))) else old(View())
    {
      if Send in active {
        if workflow.Some? {
          var cancelled := SendReducer.CancelledSend(workflow.value).workflow;
          snapshot := snapshot.(send := ViewOf(cancelled));
          workflow := Some(cancelled);
        }
        snapshot := snapshot.(send := snapshot.send.(phase := SendPhase.Cancelled));
      }
    }

    method PrepareShutdown() returns (reply: Reply)
      modifies this
      ensures (View(), reply) == ClientModel.PrepareShutdown(old(View()))
    {
      var busy := active != map[];
      if busy && snapshot.revision == U64_MAX {
        return Denied(Exhausted);
      }
      var requests := TakeLoads();
      requests := requests + RequestsOf(View(), Preview) + RequestsOf(View(), Send) + RequestsOf(View(), Resolve);
      TakeSend();
      active := map[];
      commitStarted := false;
      assert View() == TakenDown(old(View()));
      if busy {
        var ok := NextRevision();
      }
      ReleaseWaiters();
      reply := Cancelling(requests);
    }

    /** Marks the client shut down and drops the listeners that are left. */
    method ReleaseWaiters()
      modifies this`shutdown, this`dropped, this`waiters
      ensures View() == Drain(old(View()))
    {
      shutdown := true;
      dropped := dropped + set w | w in waiters :: w.channel;
      waiters := [];
    }

    /** One turn of the shutdown loop. */
    method ShutdownTurn(channel: nat) returns (reply: Reply)
      modifies this
      ensures (View(), reply) == ClientModel.ShutdownTurn(old(View()), channel)
    {
      if shutdown {
        return Done;
      }
      closing := true;
      if Send in active && commitStarted {
        waiters := waiters + [Waiter(snapshot.revision, channel)];
        reply := Waiting;
      } else {
        reply := PrepareShutdown();
      }
    }
  }

  /** When the numbers run out, every number that is left was taken. */
  lemma {:induction false} ExhaustedAllocation(s: State, n: nat)
    requires s.nextId + n > U64_MAX
    ensures Allocate(s, n) == (s.(nextId := U64_MAX), None)
    decreases n
  {
    if s.nextId < U64_MAX {
      ExhaustedAllocation(s.(nextId := s.nextId + 1), n - 1);
    }
  }

  lemma SignalledGrows(waiters: seq<Waiter>, i: nat, revision: u64)
    requires i < |waiters|
    ensures Signalled(waiters[..i + 1], revision)
         == Signalled(waiters[..i], revision)
          + (if revision > waiters[i].after then {waiters[i].channel} else {})
  {
    assert waiters[..i + 1] == waiters[..i] + [waiters[i]];
  }
}
