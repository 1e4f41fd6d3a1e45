/** The wallet client's mutable state and every block of code that runs under
    its mutex (src/engine/state.rs, send_state.rs, client.rs, send.rs,
    resolve.rs, refresh.rs, activity.rs, nft.rs, preview.rs). */
module ClientModel {
  import opened Basics
  import opened Journal
  import opened SendReducer

  datatype Family = Refresh | Pagination | NftRefresh | NftPagination | Preview | Send | Resolve

  datatype SendPhase =
    | Idle | Validating | Authorizing | Preparing | Persisting | ReadyToSubmit | Submitting | SubmissionUnknown
    | Submitted | HandedOff | Confirmed | Replaced | SequenceNumberConsumed | Expired | Superseded | Failed | Cancelled

  function PublicPhase(stage: Stage): SendPhase {
    match stage
    case Validating => SendPhase.Validating
    case LoadingJournal => SendPhase.Validating
    case FetchingFreshAccount => SendPhase.Validating
    case Authorizing => SendPhase.Authorizing
    case Preparing => SendPhase.Preparing
    case PersistingPrepared => SendPhase.Persisting
    case ReadyToSubmit => SendPhase.ReadyToSubmit
    case Submitting => SendPhase.Submitting
    case SubmissionUnknown => SendPhase.SubmissionUnknown
    case Submitted => SendPhase.Submitted
    case HandedOff => SendPhase.HandedOff
    case Confirmed => SendPhase.Confirmed
    case Replaced => SendPhase.Replaced
    case SequenceNumberConsumed => SendPhase.SequenceNumberConsumed
    case Expired => SendPhase.Expired
    case Superseded => SendPhase.Superseded
    case Failed => SendPhase.Failed
    case Cancelled => SendPhase.Cancelled
  }

  datatype SendView = SendView(operation: Option<string>, phase: SendPhase, error: Option<string>)

  function ViewOf(workflow: Workflow): SendView {
    SendView(Some(workflow.request.operationId), PublicPhase(workflow.stage), workflow.diagnostic)
  }

  datatype ResourceState = ResourceIdle | ResourceLoading | ResourceReady | ResourceFailed

  /** The resources a snapshot publishes; each has a state and last good data. */
  datatype Resource = Account | Activity | ActivityPage | Nfts | NftPage

  datatype Snapshot = Snapshot(
    revision: u64,
    resources: map<Resource, ResourceState>,
    data: map<Resource, string>,
    send: SendView)

  /** An active operation: its generation and the requests the host runs for it. */
  datatype Slot = Slot(generation: u64, ids: seq<u64>)

  /** A listener for a revision above `after`, on its own one-shot channel. */
  datatype Waiter = Waiter(after: u64, channel: nat)

  /** `woken` and `dropped` record the one-shot channels that were signalled and
      those whose sender shutdown released. */
  datatype State = State(
    snapshot: Snapshot,
    nextId: u64,
    generations: map<Family, u64>,
    active: map<Family, Slot>,
    commitStarted: bool,
    workflow: Option<Workflow>,
    waiters: seq<Waiter>,
    woken: set<nat>,
    dropped: set<nat>,
    shutdown: bool,
    closing: bool)

  datatype Error = ShuttingDown | InProgress | Exhausted | Unavailable | TooLate

  datatype Reply =
    | Done
    | Started(generation: u64, ids: seq<u64>)
    | Skipped
    | Waiting
    | Cancelling(requests: seq<u64>)
    | Denied(error: Error)

  // ----- state.rs -----

  function Generation(s: State, f: Family): u64 {
    if f in s.generations then s.generations[f] else 0
  }

  predicate IsCurrent(s: State, f: Family, g: u64) {
    f in s.active && s.active[f].generation == g
  }

  predicate Running(s: State) {
    !s.closing && !s.shutdown
  }

  /** Listeners a revision leaves waiting, in order. */
  function StillWaiting(waiters: seq<Waiter>, revision: u64): (r: seq<Waiter>)
    ensures forall w :: w in r <==> w in waiters && w.after >= revision
  {
    if waiters == [] then []
    else
      var rest := StillWaiting(waiters[..|waiters| - 1], revision);
      var last := waiters[|waiters| - 1];
      if revision > last.after then rest else rest + [last]
  }

  function Signalled(waiters: seq<Waiter>, revision: u64): set<nat> {
    set w | w in waiters && revision > w.after :: w.channel
  }

  /** Publishes a revision and wakes every listener it passes. At the last
      revision it refuses and changes nothing. */
  function NextRevision(s: State): (State, bool) {
    match CheckedIncrement(s.snapshot.revision)
    case None => (s, false)
    case Some(revision) =>
      (s.(snapshot := s.snapshot.(revision := revision),
          waiters := StillWaiting(s.waiters, revision),
          woken := s.woken + Signalled(s.waiters, revision)), true)
  }

  function Publish(s: State, reply: Reply): (State, Reply) {
    var (next, ok) := NextRevision(s);
    (next, if ok then reply else Denied(Exhausted))
  }

  /** Allocates `n` request numbers; a failure keeps the numbers taken so far. */
  function Allocate(s: State, n: nat): (r: (State, Option<seq<u64>>))
    ensures s.nextId <= r.0.nextId && r.0 == s.(nextId := r.0.nextId)
    ensures r.1.Some? ==> r.0.nextId as int == s.nextId + n && |r.1.value| == n
    ensures r.1.Some? ==> forall i :: 0 <= i < n ==> r.1.value[i] as int == s.nextId + i
    ensures r.1.None? <==> s.nextId + n > U64_MAX
    decreases n
  {
    if n == 0 then (s, Some([]))
    else
      match CheckedIncrement(s.nextId)
      case None => (s, None)
      case Some(next) =>
        var (rest, ids) := Allocate(s.(nextId := next), n - 1);
        (rest, match ids case None => None case Some(more) => Some([s.nextId] + more))
  }

  function Bump(s: State, f: Family): Option<State> {
    match CheckedIncrement(Generation(s, f))
    case None => None
    case Some(g) => Some(s.(generations := s.generations[f := g]))
  }

  function Occupy(s: State, f: Family, ids: seq<u64>): State {
    s.(active := s.active[f := Slot(Generation(s, f), ids)])
  }

  function Vacate(s: State, f: Family): State {
    s.(active := s.active - {f})
  }

  function RequestsOf(s: State, f: Family): seq<u64> {
    if f in s.active then s.active[f].ids else []
  }

  function SetResource(s: State, r: Resource, to: ResourceState): State {
    s.(snapshot := s.snapshot.(resources := s.snapshot.resources[r := to]))
  }

  function SetSend(s: State, view: SendView): State {
    s.(snapshot := s.snapshot.(send := view))
  }

  /** Nothing changes but how resources are shown. */
  predicate ResourcesOnly(s: State, t: State) {
    t == s.(snapshot := s.snapshot.(resources := t.snapshot.resources))
  }

  /** `mark_loading_cancelled`. */
  function CancelLoading(s: State, r: Resource): (t: State)
    ensures ResourcesOnly(s, t)
  {
    if r in s.snapshot.resources && s.snapshot.resources[r] == ResourceLoading then SetResource(s, r, ResourceIdle)
    else s
  }

  // ----- starting operations -----

  /** `send`, `send_boc` (seven requests) and `sign_message` (six). */
  function StartSend(s: State, workflow: Workflow, requests: nat): (State, Reply) {
    if !Running(s) then (s, Denied(ShuttingDown))
    else if Send in s.active || Resolve in s.active then (s, Denied(InProgress))
    else
      match Bump(s, Send)
      case None => (s, Denied(Exhausted))
      case Some(bumped) =>
        var (reserved, ids) := Allocate(bumped, requests);
        if ids.None? then (reserved, Denied(Exhausted))
        else
          var occupied := SetSend(Occupy(reserved, Send, []), ViewOf(workflow)).(
            commitStarted := false, workflow := Some(workflow));
          Publish(occupied, Started(Generation(occupied, Send), ids.value))
  }

  /** `resolve_pending` and the other standalone operations on its slot. */
  function StartResolve(s: State, requests: nat): (State, Reply) {
    if !Running(s) then (s, Denied(ShuttingDown))
    else if Send in s.active || Resolve in s.active then (s, Denied(InProgress))
    else
      match Bump(s, Resolve)
      case None => (s, Denied(Exhausted))
      case Some(bumped) =>
        var (reserved, ids) := Allocate(bumped, requests);
        if ids.None? then (reserved, Denied(Exhausted))
        else (Occupy(reserved, Resolve, []), Started(Generation(reserved, Resolve), ids.value))
  }

  function StartPreview(s: State, requests: nat): (State, Reply) {
    if !Running(s) then (s, Denied(ShuttingDown))
    else if Send in s.active || Preview in s.active then (s, Denied(InProgress))
    else
      match Bump(s, Preview)
      case None => (s, Denied(Exhausted))
      case Some(bumped) =>
        var (reserved, ids) := Allocate(bumped, requests);
        if ids.None? then (reserved, Denied(Exhausted))
        else (Occupy(reserved, Preview, []), Started(Generation(reserved, Preview), ids.value))
  }

  /** The two list views: account with activity, and NFTs. */
  datatype View = Wallet | NftList
  {
    function RefreshFamily(): Family {
      if Wallet? then Refresh else NftRefresh
    }

    function PageFamily(): Family {
      if Wallet? then Pagination else NftPagination
    }

    function Page(): Resource {
      if Wallet? then ActivityPage else NftPage
    }
  }

  function SetLoading(s: State, view: View): State {
    if view.Wallet? then SetResource(SetResource(s, Account, ResourceLoading), Activity, ResourceLoading)
    else SetResource(s, Nfts, ResourceLoading)
  }

  /** A refresh replaces the active one and its page load. */
  function StartRefresh(s: State, view: View): (State, Reply) {
    if !Running(s) then (s, Denied(ShuttingDown))
    else
      var (reserved, ids) := Allocate(s, if view.Wallet? then 2 else 1);
      if ids.None? then (reserved, Denied(Exhausted))
      else
        match Bump(reserved, view.RefreshFamily())
        case None => (reserved, Denied(Exhausted))
        case Some(bumped) =>
          var occupied := Vacate(Occupy(bumped, view.RefreshFamily(), ids.value), view.PageFamily());
          Publish(SetResource(SetLoading(occupied, view), view.Page(), ResourceIdle),
                  Started(Generation(occupied, view.RefreshFamily()), ids.value))
  }

  /** An older page, unless a refresh or another page load runs or nothing is left. */
  function StartPage(s: State, view: View, hasMore: bool): (State, Reply) {
    if !Running(s) then (s, Denied(ShuttingDown))
    else if view.RefreshFamily() in s.active || view.PageFamily() in s.active || !hasMore then (s, Skipped)
    else
      var (reserved, ids) := Allocate(s, 1);
      if ids.None? then (reserved, Denied(Exhausted))
      else
        match Bump(reserved, view.PageFamily())
        case None => (reserved, Denied(Exhausted))
        case Some(bumped) =>
          Publish(SetResource(Occupy(bumped, view.PageFamily(), ids.value), view.Page(), ResourceLoading),
                  Started(Generation(bumped, view.PageFamily()), ids.value))
  }

  // ----- send_state.rs and resolution.rs: blocks of a running operation -----

  /** `ensure_current_send`, `ensure_current_resolution`. */
  function Check(s: State, f: Family, g: u64): Reply {
    if f == Send && s.shutdown then Denied(ShuttingDown)
    else if !IsCurrent(s, f, g) then Denied(Unavailable)
    else Done
  }

  /** `start_send_request`, `start_resolution_request`, `start_preview_request`. */
  function Track(s: State, f: Family, g: u64, id: u64): (State, Reply) {
    if f == Send && s.shutdown then (s, Denied(ShuttingDown))
    else if f == Preview && !Running(s) then (s, Denied(ShuttingDown))
    else if !IsCurrent(s, f, g) then (s, Denied(Unavailable))
    else (s.(active := s.active[f := Slot(g, s.active[f].ids + [id])]), Done)
  }

  predicate Distinct(ids: seq<u64>) {
    forall i, j :: 0 <= i < j < |ids| ==> ids[i] != ids[j]
  }

  /** `Vec::retain` of every other request number. */
  function Without(ids: seq<u64>, id: u64): (r: seq<u64>)
    ensures forall x :: x in r <==> x in ids && x != id
  {
    if ids == [] then []
    else
      var rest := Without(ids[..|ids| - 1], id);
      if ids[|ids| - 1] == id then rest else rest + [ids[|ids| - 1]]
  }

  function Untrack(s: State, f: Family, g: u64, id: u64): (State, Reply) {
    if f == Send && s.shutdown then (s, Denied(ShuttingDown))
    else if f == Preview && !Running(s) then (s, Denied(ShuttingDown))
    else if !IsCurrent(s, f, g) then (s, Denied(Unavailable))
    else (s.(active := s.active[f := Slot(g, Without(s.active[f].ids, id))]), Done)
  }

  /** A standalone operation reserves one more request number. */
  function AllocateMore(s: State, g: u64): (State, Reply) {
    if !IsCurrent(s, Resolve, g) then (s, Denied(Unavailable))
    else
      var (reserved, ids) := Allocate(s, 1);
      if ids.None? then (reserved, Denied(Exhausted)) else (reserved, Started(g, ids.value))
  }

  /** `publish_send_workflow`. */
  function PublishWorkflow(s: State, g: u64, workflow: Workflow): (State, Reply) {
    if !IsCurrent(s, Send, g) then (s, Denied(Unavailable))
    else Publish(SetSend(s, ViewOf(workflow)).(workflow := Some(workflow)), Done)
  }

  /** `publish_prior_send_resolution`. */
  function PublishPrior(s: State, g: u64, view: SendView): (State, Reply) {
    if !IsCurrent(s, Send, g) then (s, Denied(Unavailable)) else Publish(SetSend(s, view), Done)
  }

  function ReleaseSend(s: State): State {
    Vacate(s, Send).(commitStarted := false)
  }

  /** `block_send_for_pending`. */
  function BlockSend(s: State, g: u64, view: SendView): (State, Reply) {
    if !IsCurrent(s, Send, g) then (s, Denied(Unavailable))
    else Publish(SetSend(ReleaseSend(s), view).(workflow := None), Done)
  }

  /** `fail_send` and `mark_send_unknown`: a stale generation changes nothing. */
  function EndSend(s: State, g: u64, phase: SendPhase, message: string): (State, Reply) {
    if !IsCurrent(s, Send, g) then (s, Done)
    else Publish(SetSend(ReleaseSend(s), s.snapshot.send.(phase := phase, error := Some(message))), Done)
  }

  /** `begin_send_commit`: the irreversible boundary. */
  function BeginCommit(s: State, g: u64): (State, Reply) {
    if s.shutdown then (s, Denied(ShuttingDown))
    else if !IsCurrent(s, Send, g) then (s, Denied(Unavailable))
    else (s.(commitStarted := true), Done)
  }

  /** The terminal block of a delivered send. */
  function FinishSend(s: State, g: u64, workflow: Workflow): (State, Reply) {
    if !IsCurrent(s, Send, g) then (s, Done)
    else Publish(SetSend(ReleaseSend(s), ViewOf(workflow)).(workflow := Some(workflow)), Done)
  }

  /** `complete_standalone_resolution`. */
  function CompleteResolve(s: State, g: u64, view: Option<SendView>): (State, Reply) {
    if !IsCurrent(s, Resolve, g) then (s, Denied(Unavailable))
    else if view.Some? && view.value != s.snapshot.send
    then Publish(SetSend(Vacate(s, Resolve), view.value), Done)
    else (Vacate(s, Resolve), Done)
  }

  /** A failed standalone operation releases its slot if it still holds it. */
  function DiscardResolve(s: State, g: u64): (State, Reply) {
    (if IsCurrent(s, Resolve, g) then Vacate(s, Resolve) else s, Done)
  }

  function FinishPreview(s: State, g: u64): (State, Reply) {
    if IsCurrent(s, Preview, g) then (Vacate(s, Preview), Done)
    else if s.shutdown then (s, Denied(ShuttingDown))
    else (s, Denied(Unavailable))
  }

  /** A loaded value, a cancelled host call, or a failure. */
  datatype Loaded = Fresh(data: string) | HostCancelled | LoadFailed

  function Absorb(s: State, r: Resource, shown: Resource, loaded: Loaded): State {
    match loaded
    case Fresh(data) =>
      var kept := SetResource(s, shown, ResourceReady);
      kept.(snapshot := kept.snapshot.(data := kept.snapshot.data[r := data]))
    case HostCancelled => SetResource(s, shown, ResourceIdle)
    case LoadFailed => SetResource(s, shown, ResourceFailed)
  }

  /** `publish_refresh_component`; a cancelled component counts as failed. */
  function PublishComponent(s: State, g: u64, r: Resource, loaded: Loaded): (State, Reply) {
    if !IsCurrent(s, Refresh, g) then (s, Done)
    else Publish(Absorb(s, r, r, if loaded.HostCancelled? then LoadFailed else loaded), Done)
  }

  function FinishRefresh(s: State, g: u64): (State, Reply) {
    if !IsCurrent(s, Refresh, g) then (s, Skipped) else (Vacate(s, Refresh), Done)
  }

  /** The second half of a page load or an NFT refresh. */
  function FinishLoad(s: State, f: Family, g: u64, r: Resource, shown: Resource, loaded: Loaded): (State, Reply) {
    if !IsCurrent(s, f, g) then (s, Skipped) else Publish(Absorb(Vacate(s, f), r, shown, loaded), Done)
  }

  // ----- cancellation, waiting, and shutdown -----

  function CancelledView(s: State): SendView {
    var view := match s.workflow
      case None => s.snapshot.send
      case Some(workflow) => ViewOf(CancelledSend(workflow).workflow);
    view.(phase := SendPhase.Cancelled)
  }

  function CancelWorkflow(s: State): State {
    s.(workflow := match s.workflow
      case None => None
      case Some(workflow) => Some(CancelledSend(workflow).workflow))
  }

  /** `cancel_send`: too late once the commit started. */
  function CancelSend(s: State): (State, Reply) {
    if Send in s.active && s.commitStarted then (s, Denied(TooLate))
    else if Send !in s.active then (s.(commitStarted := false), Cancelling([]))
    else
      var released := CancelWorkflow(SetSend(ReleaseSend(s), CancelledView(s)));
      Publish(released, Cancelling(s.active[Send].ids))
  }

  function CancelRefresh(s: State): (State, Reply) {
    if RequestsOf(s, Refresh) == [] then (Vacate(s, Refresh), Cancelling([]))
    else Publish(CancelLoading(CancelLoading(Vacate(s, Refresh), Account), Activity), Cancelling(RequestsOf(s, Refresh)))
  }

  /** Cancels a page load or an NFT refresh. */
  function CancelLoad(s: State, f: Family, shown: Resource): (State, Reply) {
    if f !in s.active then (s, Cancelling([]))
    else Publish(SetResource(Vacate(s, f), shown, ResourceIdle), Cancelling(RequestsOf(s, f)))
  }

  function CancelPreview(s: State): (State, Reply) {
    if !Running(s) then (s, Denied(ShuttingDown)) else (Vacate(s, Preview), Cancelling(RequestsOf(s, Preview)))
  }

  /** `wait_for_change`: answers at once or registers a listener. */
  function Wait(s: State, after: u64, channel: nat): (State, Reply) {
    if !Running(s) then (s, Denied(ShuttingDown))
    else if s.snapshot.revision > after then (s, Done)
    else (s.(waiters := s.waiters + [Waiter(after, channel)]), Waiting)
  }

  /** The lists shown while every active load is taken down. */
  function LoadsDown(s: State): (t: State)
    ensures ResourcesOnly(s, t)
    ensures s.active == map[] ==> t == s
  {
    var s1 := if Refresh in s.active then CancelLoading(CancelLoading(s, Account), Activity) else s;
    var s2 := if Pagination in s.active then SetResource(s1, ActivityPage, ResourceIdle) else s1;
    var s3 := if NftRefresh in s.active then CancelLoading(s2, Nfts) else s2;
    if NftPagination in s.active then SetResource(s3, NftPage, ResourceIdle) else s3
  }

  /** The published effects of taking every active operation down. */
  function TakenDown(s: State): State {
    var shown := LoadsDown(s);
    var stopped := if Send in s.active then CancelWorkflow(SetSend(shown, CancelledView(s))) else shown;
    stopped.(active := map[], commitStarted := false)
  }

  function AllRequests(s: State): seq<u64> {
    RequestsOf(s, Refresh) + RequestsOf(s, Pagination) + RequestsOf(s, NftRefresh) + RequestsOf(s, NftPagination)
    + RequestsOf(s, Preview) + RequestsOf(s, Send) + RequestsOf(s, Resolve)
  }

  function Drain(s: State): State {
    s.(shutdown := true, waiters := [], dropped := s.dropped + (set w | w in s.waiters :: w.channel))
  }

  /** `prepare_shutdown`. */
  function PrepareShutdown(s: State): (State, Reply) {
    if s.active == map[] then (Drain(TakenDown(s)), Cancelling([]))
    else if s.snapshot.revision == U64_MAX then (s, Denied(Exhausted))
    else (Drain(NextRevision(TakenDown(s)).0), Cancelling(AllRequests(s)))
  }

  /** One turn of the shutdown loop: done, wait for a committed send, or finish. */
  function ShutdownTurn(s: State, channel: nat): (State, Reply) {
    if s.shutdown then (s, Done)
    else
      var closing := s.(closing := true);
      if Send in s.active && s.commitStarted
      then (closing.(waiters := s.waiters + [Waiter(s.snapshot.revision, channel)]), Waiting)
      else PrepareShutdown(closing)
  }
}
