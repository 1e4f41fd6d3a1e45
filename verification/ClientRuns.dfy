/** Every interleaving of calls on one wallet client: each event is one block
    under the mutex, and everything between two blocks of an operation is free. */
module ClientRuns {
  import opened Basics
  import SendReducer
  import opened ClientModel

  /** One started operation. */
  datatype Key = Key(family: Family, generation: u64)

  /** The client with what its callers hold: the request numbers each operation
      reserved and the revision each one-shot channel waits for. */
  datatype Client = Client(
    state: State,
    owned: map<Key, set<u64>>,
    registered: map<nat, u64>,
    channels: nat)

  datatype Block =
    | Checks
    | Tracks(id: u64)
    | Untracks(id: u64)
    | AllocatesMore
    | Publishes(workflow: SendReducer.Workflow)
    | PublishesPrior(prior: SendView)
    | Blocks(pending: SendView)
    | Ends(phase: SendPhase, message: string)
    | Commits
    | Finishes(final: SendReducer.Workflow)
    | Completes(resolved: Option<SendView>)
    | Discards
    | FinishesPreview
    | PublishesComponent(component: Resource, value: Loaded)
    | FinishesRefresh
    | FinishesLoad(page: Loaded)

  datatype ClientEvent =
    | BeginSend(workflow: SendReducer.Workflow, requests: nat)
    | BeginResolve(requests: nat)
    | BeginPreview(requests: nat)
    | BeginRefresh(view: View)
    | BeginPage(view: View, hasMore: bool)
    | Op(key: Key, block: Block)
    | CancelsSend
    | CancelsRefresh
    | CancelsLoad(family: Family)
    | CancelsPreview
    | Waits(after: u64)
    | ShutsDown

  function NewClient(snapshot: Snapshot): Client {
    var s := State(snapshot.(revision := 0), 1, map[], map[], false, None, [], {}, {}, false, false);
    Client(s, map[], map[], 0)
  }

  /** The blocks each kind of operation runs. */
  predicate Fits(f: Family, b: Block) {
    match f
    case Send => b.Checks? || b.Tracks? || b.Untracks? || b.Publishes? || b.PublishesPrior? || b.Blocks? || b.Ends?
                 || b.Commits? || b.Finishes?
    case Resolve => b.Checks? || b.Tracks? || b.Untracks? || b.AllocatesMore? || b.Completes? || b.Discards?
    case Preview => b.Tracks? || b.Untracks? || b.FinishesPreview?
    case Refresh => (b.PublishesComponent? && (b.component == Account || b.component == Activity)) || b.FinishesRefresh?
    case _ => b.FinishesLoad?
  }

  function DataOf(f: Family): Resource {
    if f == Pagination then Activity else Nfts
  }

  function ShownBy(f: Family): Resource {
    match f
    case Pagination => ActivityPage
    case NftPagination => NftPage
    case _ => Nfts
  }

  function RunBlock(s: State, key: Key, b: Block): (State, Reply) {
    var f, g := key.family, key.generation;
    match b
    case Checks => (s, Check(s, f, g))
    case Tracks(id) => Track(s, f, g, id)
    case Untracks(id) => Untrack(s, f, g, id)
    case AllocatesMore => AllocateMore(s, g)
    case Publishes(workflow) => PublishWorkflow(s, g, workflow)
    case PublishesPrior(view) => PublishPrior(s, g, view)
    case Blocks(view) => BlockSend(s, g, view)
    case Ends(phase, message) => EndSend(s, g, phase, message)
    case Commits => BeginCommit(s, g)
    case Finishes(workflow) => FinishSend(s, g, workflow)
    case Completes(view) => CompleteResolve(s, g, view)
    case Discards => DiscardResolve(s, g)
    case FinishesPreview => FinishPreview(s, g)
    case PublishesComponent(r, value) => PublishComponent(s, g, r, value)
    case FinishesRefresh => FinishRefresh(s, g)
    case FinishesLoad(value) => FinishLoad(s, f, g, DataOf(f), ShownBy(f), value)
  }

  /** An operation runs blocks of its own kind, in any order, and tracks only
      numbers it reserved. */
  predicate MayRun(c: Client, key: Key, b: Block) {
    && key in c.owned && Fits(key.family, b)
    && (b.Tracks? ==> b.id in c.owned[key] && b.id !in RequestsOf(c.state, key.family))
  }

  /** The request numbers from `lo` up to but excluding `hi`. */
  function Numbers(lo: u64, hi: u64): (r: set<u64>)
    ensures forall id :: id in r <==> lo <= id < hi
    decreases if lo < hi then hi - lo else 0
  {
    if lo >= hi then {} else {lo} + Numbers(lo + 1, hi)
  }

  function StartedWith(c: Client, f: Family, result: (State, Reply)): (Client, Reply) {
    var (s, reply) := result;
    var key := Key(f, Generation(s, f));
    if Generation(s, f) == Generation(c.state, f) then (c.(state := s), reply)
    else (c.(state := s, owned := c.owned[key := Numbers(c.state.nextId, s.nextId)]), reply)
  }

  function WithState(c: Client, result: (State, Reply)): (Client, Reply) {
    (c.(state := result.0), result.1)
  }

  /** Registers the next channel when the block left it waiting. */
  function Registered(c: Client, after: u64, result: (State, Reply)): (Client, Reply) {
    var next := c.(state := result.0, channels := c.channels + 1);
    (if result.1 == Waiting then next.(registered := c.registered[c.channels := after]) else next, result.1)
  }

  function RunOp(c: Client, key: Key, b: Block): (Client, Reply)
    requires key in c.owned
  {
    var (s, reply) := RunBlock(c.state, key, b);
    var extended := c.owned[key] + Numbers(c.state.nextId, s.nextId);
    (c.(state := s, owned := c.owned[key := extended]), reply)
  }

  /** Cancellable loads other than the wallet refresh. */
  predicate IsLoad(f: Family) {
    f == Pagination || f == NftRefresh || f == NftPagination
  }

  function Step(c: Client, e: ClientEvent): (Client, Reply) {
    var s := c.state;
    match e
    case BeginSend(workflow, requests) => StartedWith(c, Send, StartSend(s, workflow, requests))
    case BeginResolve(requests) => StartedWith(c, Resolve, StartResolve(s, requests))
    case BeginPreview(requests) => StartedWith(c, Preview, StartPreview(s, requests))
    case BeginRefresh(view) => StartedWith(c, view.RefreshFamily(), StartRefresh(s, view))
    case BeginPage(view, hasMore) => StartedWith(c, view.PageFamily(), StartPage(s, view, hasMore))
    case Op(key, b) => if MayRun(c, key, b) then RunOp(c, key, b) else (c, Denied(Unavailable))
    case CancelsSend => WithState(c, CancelSend(s))
    case CancelsRefresh => WithState(c, CancelRefresh(s))
    case CancelsLoad(f) => if IsLoad(f) then WithState(c, CancelLoad(s, f, ShownBy(f))) else (c, Skipped)
    case CancelsPreview => WithState(c, CancelPreview(s))
    case Waits(after) => Registered(c, after, Wait(s, after, c.channels))
    case ShutsDown => Registered(c, s.snapshot.revision, ShutdownTurn(s, c.channels))
  }

  function Run(c: Client, events: seq<ClientEvent>): Client
    decreases |events|
  {
    if events == [] then c else Run(Step(c, events[0]).0, events[1..])
  }
}
