/** The control flow of every operation between its first block and its return:
    which block it runs next, after which reply and which answer of the host, with
    every error exit (send.rs, send_boc.rs, sign_message.rs, resolve.rs,
    resolution.rs, dns.rs, encrypted_comment.rs, prepare_transfer.rs,
    key_rotation.rs, preview.rs, refresh.rs, activity.rs, nft.rs). */
module ClientPrograms {
  import opened Basics
  import SendReducer
  import opened ClientModel
  import opened ClientRuns

  /** Key rotation runs the blocks of transfer preparation. */
  datatype Program =
    | LocalSend | PreparedSend | SignMessage
    | Recovery | NameLookup | RecipientLookup | EncryptComment | DecryptComment | PrepareTransfer
    | PreviewSend | PreviewSignature
    | WalletRefresh | ListLoad(family: Family)
  {
    predicate IsSend() {
      LocalSend? || PreparedSend? || SignMessage?
    }

    predicate IsPreview() {
      PreviewSend? || PreviewSignature?
    }

    function Family(): Family {
      if IsSend() then Send
      else if IsPreview() then Preview
      else if WalletRefresh? then Refresh
      else if ListLoad? then family
      else Resolve
    }
  }

  /** Provider requests an operation tracks while the host runs them. */
  datatype Request =
    | AccountRead | SeqnoRead | ExecutedRead | MempoolRead | StateRead | RecheckRead | InternalRead
    | Submission | KeyPage(number: nat) | PublicKeyRead | Emulation | NameRead

  /** Where an operation tests whether it is still current. */
  datatype Site = Loaded | Recorded(tries: nat) | SecretRead | Stored | Replied | Closed | HistoryRead

  /** What a send publishes on its way. */
  datatype Progress = Prior | Accepted | Unlocking | Signing | Prepared | Releasing | Answered

  /** The next block of an operation. */
  datatype Pc =
    | StartOf(request: Request)
    | FinishOf(request: Request)
    | CheckAt(site: Site)
    | Show(progress: Progress)
    | BlockedSend
    | CommitSend
    | FinalSend
    | FailSend(unknown: bool)
    | ReservePage(number: nat)
    | Complete
    | Discard
    | DonePreview
    | ShowComponent(resource: Resource)
    | DoneRefresh
    | DoneLoad

  const TRIES: nat := 3
  const MAX_PAGES: nat := 10

  /** The error exit of each kind of operation. */
  predicate GivesUp(p: Program, next: Pc) {
    if p.IsSend() then next == FailSend(false) else if p.IsPreview() then next == DonePreview else next == Discard
  }

  /** A pending record was classified. */
  predicate Resolves(p: Program, next: Pc) {
    if p.IsSend() then next == Show(Prior) else next == Complete
  }

  /** A terminal conclusion is written; a failing host gives up. */
  predicate Records(p: Program, tries: nat, next: Pc) {
    GivesUp(p, next) || (tries < TRIES && next == CheckAt(Recorded(tries + 1)))
  }

  predicate CanResolve(p: Program) {
    p.IsSend() || p.Recovery?
  }

  /** The blocks that may come first after a successful start. */
  predicate First(p: Program, next: Pc) {
    match p
    case LocalSend => next == FailSend(false) || next == CheckAt(Loaded)
    case PreparedSend => next == FailSend(false) || next == CheckAt(Loaded)
    case SignMessage => next == FailSend(false) || next == CheckAt(Loaded)
    case Recovery => next == Discard || next == Complete || next == StartOf(AccountRead)
    case NameLookup => next == StartOf(NameRead)
    case RecipientLookup => next == StartOf(AccountRead)
    case EncryptComment => next == StartOf(AccountRead)
    case DecryptComment => next == Discard || next == CheckAt(SecretRead)
    case PrepareTransfer => next == StartOf(AccountRead)
    case PreviewSend => next == DonePreview || next == StartOf(AccountRead)
    case PreviewSignature => next == DonePreview || next == StartOf(AccountRead)
    case WalletRefresh => next == ShowComponent(Account)
    case ListLoad(_) => next == DoneLoad
  }

  predicate AfterAccount(p: Program, next: Pc) {
    match p
    case Recovery => next == Discard || next == StartOf(ExecutedRead) || next == StartOf(InternalRead)
    case RecipientLookup => next == Discard || next == StartOf(PublicKeyRead) || next == Complete
    case EncryptComment => next == Discard || next == StartOf(PublicKeyRead) || next == CheckAt(SecretRead)
    case PrepareTransfer => next == Discard || next == StartOf(SeqnoRead) || next == CheckAt(SecretRead)
    case PreviewSend => next == DonePreview || next == StartOf(SeqnoRead) || next == StartOf(Emulation)
    case PreviewSignature => next == DonePreview
    case _ =>
      p.IsSend() && (next == FailSend(false) || next == StartOf(ExecutedRead) || next == StartOf(InternalRead)
                     || next == Show(Accepted))
  }

  predicate AfterSeqno(p: Program, next: Pc) {
    match p
    case PrepareTransfer => next == Discard || next == CheckAt(SecretRead)
    case PreviewSend => next == DonePreview || next == StartOf(Emulation)
    case _ => p.IsSend() && (next == FailSend(false) || next == Show(Unlocking))
  }

  /** What may follow a tracked request, over every answer of the provider. */
  predicate AfterRequest(p: Program, r: Request, next: Pc) {
    match r
    case AccountRead => AfterAccount(p, next)
    case SeqnoRead => AfterSeqno(p, next)
    case ExecutedRead => CanResolve(p) && (Records(p, 0, next) || next == StartOf(MempoolRead))
    case MempoolRead => CanResolve(p) && (Resolves(p, next) || next == StartOf(StateRead))
    case StateRead => CanResolve(p) && (Records(p, 0, next) || Resolves(p, next) || next == StartOf(RecheckRead))
    case RecheckRead => CanResolve(p) && Records(p, 0, next)
    case InternalRead => CanResolve(p) && (Records(p, 0, next) || Resolves(p, next))
    case Submission => p.IsSend() && (next == FailSend(true) || next == Show(Answered))
    case KeyPage(n) =>
      p.DecryptComment?
      && (next == Discard || next == CheckAt(HistoryRead) || (n < MAX_PAGES && next == ReservePage(n + 1)))
    case PublicKeyRead =>
      (p.RecipientLookup? && (next == Discard || next == Complete))
      || (p.EncryptComment? && (next == Discard || next == CheckAt(SecretRead)))
    case Emulation => p.PreviewSend? && next == DonePreview
    case NameRead => p.NameLookup? && (next == Discard || next == Complete)
  }

  /** What may follow a currency test that passed. */
  predicate AfterCheck(p: Program, site: Site, next: Pc) {
    match site
    case Loaded => p.IsSend() && (next == FailSend(false) || next == StartOf(AccountRead))
    case Recorded(tries) => CanResolve(p) && (Records(p, tries, next) || Resolves(p, next))
    case SecretRead =>
      ((p.LocalSend? || p.SignMessage?) && (next == FailSend(false) || next == Show(Signing)))
      || ((p.EncryptComment? || p.PrepareTransfer?) && (next == Discard || next == Complete))
      || (p.DecryptComment? && (next == Discard || next == Complete || next == ReservePage(1)))
    case Stored =>
      p.IsSend() && (next.FailSend? || (if p.SignMessage? then next == FinalSend else next == Show(Releasing)))
    case Replied => p.IsSend() && (next == FailSend(true) || next == CheckAt(Closed))
    case Closed => p.IsSend() && (next == FailSend(true) || next == FinalSend)
    case HistoryRead => p.DecryptComment? && (next == Discard || next == Complete)
  }

  predicate AfterShow(p: Program, progress: Progress, next: Pc) {
    && p.IsSend()
    && match progress
       case Prior => next == BlockedSend || next == FailSend(false) || next == Show(Accepted)
       case Accepted => next == FailSend(false) || next == StartOf(SeqnoRead) || next == Show(Unlocking)
       case Unlocking =>
         next == FailSend(false) || (if p.PreparedSend? then next == Show(Prepared) else next == CheckAt(SecretRead))
       case Signing => next == FailSend(false) || next == Show(Prepared)
       case Prepared => next == CommitSend
       case Releasing => next == StartOf(Submission)
       case Answered => next == CheckAt(Replied)
  }

  /** What may follow a block that was not refused. */
  predicate Follows(p: Program, pc: Pc, next: Pc) {
    match pc
    case StartOf(r) => next == FinishOf(r)
    case FinishOf(r) => AfterRequest(p, r, next)
    case CheckAt(site) => AfterCheck(p, site, next)
    case Show(progress) => AfterShow(p, progress, next)
    case CommitSend => next == FailSend(true) || next == CheckAt(Stored)
    case ReservePage(n) => next == Discard || next == StartOf(KeyPage(n))
    case ShowComponent(r) => if r == Account then next == ShowComponent(Activity) else next == DoneRefresh
    case _ => false
  }

  /** After a refusal these standalone operations still discard their slot; every
      other operation returns at once. */
  predicate Cleans(p: Program, pc: Pc) {
    && (p.NameLookup? || p.RecipientLookup? || p.EncryptComment? || p.DecryptComment? || p.PrepareTransfer?)
    && (pc.StartOf? || pc.FinishOf? || pc.ReservePage?)
  }

  predicate Last(pc: Pc) {
    pc.BlockedSend? || pc.FinalSend? || pc.FailSend? || pc.Complete? || pc.Discard? || pc.DonePreview? || pc.DoneRefresh?
    || pc.DoneLoad?
  }

  // ----- the blocks -----

  /** What an operation brings to its next block. */
  datatype Content = Content(
    id: u64, workflow: SendReducer.Workflow, view: SendView, resolved: Option<SendView>, message: string, loaded: Loaded)

  function BlockAt(pc: Pc, x: Content): Block {
    match pc
    case StartOf(_) => Tracks(x.id)
    case FinishOf(_) => Untracks(x.id)
    case CheckAt(_) => Checks
    case Show(Prior) => PublishesPrior(x.view)
    case Show(_) => Publishes(x.workflow)
    case BlockedSend => Blocks(x.view)
    case CommitSend => Commits
    case FinalSend => Finishes(x.workflow)
    case FailSend(unknown) => Ends(if unknown then SubmissionUnknown else Failed, x.message)
    case ReservePage(_) => AllocatesMore
    case Complete => Completes(x.resolved)
    case Discard => Discards
    case DonePreview => FinishesPreview
    case ShowComponent(r) => PublishesComponent(r, x.loaded)
    case DoneRefresh => FinishesRefresh
    case DoneLoad => FinishesLoad(x.loaded)
  }

  /** The provider requests of each program. */
  predicate Sends(p: Program, r: Request) {
    match r
    case AccountRead =>
      CanResolve(p) || p.RecipientLookup? || p.EncryptComment? || p.PrepareTransfer? || p.IsPreview()
    case SeqnoRead => p.IsSend() || p.PrepareTransfer? || p.PreviewSend?
    case Submission => p.LocalSend? || p.PreparedSend?
    case KeyPage(_) => p.DecryptComment?
    case PublicKeyRead => p.RecipientLookup? || p.EncryptComment?
    case Emulation => p.PreviewSend?
    case NameRead => p.NameLookup?
    case _ => CanResolve(p)
  }

  predicate Tests(p: Program, site: Site) {
    match site
    case Recorded(_) => CanResolve(p)
    case SecretRead =>
      p.LocalSend? || p.SignMessage? || p.EncryptComment? || p.DecryptComment? || p.PrepareTransfer?
    case HistoryRead => p.DecryptComment?
    case Replied => p.IsSend() && !p.SignMessage?
    case Closed => p.IsSend() && !p.SignMessage?
    case _ => p.IsSend()
  }

  /** The blocks a program can ever come to. */
  predicate Belongs(p: Program, pc: Pc) {
    match pc
    case StartOf(r) => Sends(p, r)
    case FinishOf(r) => Sends(p, r)
    case CheckAt(site) => Tests(p, site)
    case Show(progress) => p.IsSend() && (progress.Releasing? || progress.Answered? ==> !p.SignMessage?)
    case BlockedSend => p.IsSend()
    case CommitSend => p.IsSend()
    case FinalSend => p.IsSend()
    case FailSend(_) => p.IsSend()
    case ReservePage(_) => p.DecryptComment?
    case Complete => p.Family() == Resolve
    case Discard => p.Family() == Resolve
    case DonePreview => p.IsPreview()
    case ShowComponent(r) => p.WalletRefresh? && (r == Account || r == Activity)
    case DoneRefresh => p.WalletRefresh?
    case DoneLoad => p.ListLoad?
  }

  /** Programs the engine has: list loads are page loads and NFT refreshes. */
  predicate Real(p: Program) {
    p.ListLoad? ==> IsLoad(p.family)
  }

  lemma BelongsFits(p: Program, pc: Pc, x: Content)
    requires Real(p) && Belongs(p, pc)
    ensures Fits(p.Family(), BlockAt(pc, x))
  {
  }

  lemma RequestBelongs(p: Program, r: Request, next: Pc)
    requires Sends(p, r) && AfterRequest(p, r, next)
    ensures Belongs(p, next)
  {
    match r {
      case AccountRead =>
      case SeqnoRead =>
      case _ =>
    }
  }

  lemma CheckBelongs(p: Program, site: Site, next: Pc)
    requires Tests(p, site) && AfterCheck(p, site, next)
    ensures Belongs(p, next)
  {
  }

  lemma ShowBelongs(p: Program, progress: Progress, next: Pc)
    requires Belongs(p, Show(progress)) && AfterShow(p, progress, next)
    ensures Belongs(p, next)
  {
  }

  /** No transition leaves the program's own blocks. */
  lemma FollowsBelongs(p: Program, pc: Pc, next: Pc)
    requires Belongs(p, pc) && Follows(p, pc, next)
    ensures Belongs(p, next)
  {
    match pc {
      case FinishOf(r) => RequestBelongs(p, r, next);
      case CheckAt(site) => CheckBelongs(p, site, next);
      case Show(progress) => ShowBelongs(p, progress, next);
      case _ =>
    }
  }

  /** One way to go on from a block that is not the last: the host's failure, or the
      only successor. */
  function OneNext(p: Program, pc: Pc): Pc {
    var failing := if p.IsSend() then FailSend(false) else if p.IsPreview() then DonePreview else Discard;
    match pc
    case StartOf(r) => FinishOf(r)
    case FinishOf(MempoolRead) => StartOf(StateRead)
    case FinishOf(Submission) => FailSend(true)
    case CheckAt(Replied) => FailSend(true)
    case CheckAt(Closed) => FailSend(true)
    case Show(Prepared) => CommitSend
    case Show(Releasing) => StartOf(Submission)
    case Show(Answered) => CheckAt(Replied)
    case CommitSend => FailSend(true)
    case ShowComponent(r) => if r == Account then ShowComponent(Activity) else DoneRefresh
    case _ => failing
  }

  /** A program never stops in the middle. */
  lemma AlwaysGoesOn(p: Program, pc: Pc)
    requires Real(p) && Belongs(p, pc) && !Last(pc)
    ensures Follows(p, pc, OneNext(p, pc))
  {
  }

  lemma FirstBelongs(p: Program, next: Pc)
    requires Real(p) && First(p, next)
    ensures Belongs(p, next)
  {
  }

  // ----- every program ends -----

  function RequestRank(r: Request): nat {
    match r
    case AccountRead => 229
    case InternalRead => 227
    case ExecutedRead => 227
    case MempoolRead => 225
    case StateRead => 223
    case RecheckRead => 221
    case SeqnoRead => 211
    case PublicKeyRead => 211
    case Emulation => 204
    case Submission => 84
    case KeyPage(n) => if n <= MAX_PAGES then 41 - 3 * n else 4
    case NameRead => 9
  }

  /** An upper bound on the blocks a program still runs. */
  function Rank(pc: Pc): nat {
    match pc
    case StartOf(r) => RequestRank(r) + 1
    case FinishOf(r) => RequestRank(r)
    case CheckAt(Loaded) => 231
    case CheckAt(Recorded(tries)) => if tries <= TRIES then 220 - tries else 215
    case CheckAt(SecretRead) => 200
    case CheckAt(Stored) => 87
    case CheckAt(Replied) => 82
    case CheckAt(Closed) => 81
    case CheckAt(HistoryRead) => 3
    case Show(Prior) => 214
    case Show(Accepted) => 213
    case Show(Unlocking) => 210
    case Show(Signing) => 90
    case Show(Prepared) => 89
    case Show(Releasing) => 86
    case Show(Answered) => 83
    case CommitSend => 88
    case ReservePage(n) => if n <= MAX_PAGES then 43 - 3 * n else 6
    case ShowComponent(r) => if r == Account then 3 else 2
    case _ => 1
  }

  lemma RequestRankFalls(p: Program, r: Request, next: Pc)
    requires AfterRequest(p, r, next)
    ensures 1 <= Rank(next) < RequestRank(r)
  {
    match r {
      case AccountRead =>
      case SeqnoRead =>
      case _ =>
    }
  }

  lemma CheckRankFalls(p: Program, site: Site, next: Pc)
    requires AfterCheck(p, site, next)
    ensures 1 <= Rank(next) < Rank(CheckAt(site))
  {
  }

  lemma ShowRankFalls(p: Program, progress: Progress, next: Pc)
    requires AfterShow(p, progress, next)
    ensures 1 <= Rank(next) < Rank(Show(progress))
  {
  }

  /** Whatever the replies and answers are, each block brings the program closer to
      its end. */
  lemma RankFalls(p: Program, pc: Pc, next: Pc)
    requires Follows(p, pc, next) || (Cleans(p, pc) && next == Discard)
    ensures 1 <= Rank(next) < Rank(pc)
  {
    if Cleans(p, pc) && next == Discard {
    } else {
      match pc {
        case FinishOf(r) => RequestRankFalls(p, r, next);
        case CheckAt(site) => CheckRankFalls(p, site, next);
        case Show(progress) => ShowRankFalls(p, progress, next);
        case _ =>
      }
    }
  }

  /** The most blocks any program runs after its start. */
  const MOST_BLOCKS: nat := 231

  lemma FirstRank(p: Program, first: Pc)
    requires First(p, first)
    ensures 1 <= Rank(first) <= MOST_BLOCKS
  {
  }
}
