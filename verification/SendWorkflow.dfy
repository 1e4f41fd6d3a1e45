/** The send reducer (src/wallet/send.rs): a state machine that turns host
    answers into directives and owns the version of its next journal write.
    `Workflow` and its functions are the specification; `SendWorkflow` is the
    mutable object the engine drives. */
module SendReducer {
  import opened Basics
  import opened Journal

  datatype AccountStatus = Nonexistent | Uninitialized | Active | Frozen | Unknown

  datatype FreshAccount = FreshAccount(status: AccountStatus, seqno: nat)
  {
    predicate PermitsSend() {
      status == Active || (seqno == 0 && (status == Nonexistent || status == Uninitialized))
    }

    predicate NeedsStateInit() {
      status != Active
    }
  }

  datatype Prepared = Prepared(
    operationId: string,
    owner: Owner,
    message: Message,
    batch: seq<string>,
    needsStateInit: bool)

  /** The immutable caller request; `exact` is an exact expiration. */
  datatype Request = Request(operationId: string, force: bool, batch: seq<string>, exact: Option<u64>)

  datatype Workflow = Workflow(
    owner: Owner,
    request: Request,
    kind: Kind,
    hasSecret: bool,
    stage: Stage,
    account: Option<FreshAccount>,
    prepared: Option<Prepared>,
    journalVersion: Option<u64>,
    diagnostic: Option<string>)

  datatype Directive =
    | LoadJournal
    | FetchFreshAccount
    | ReadProtectedSecret
    | PrepareTransfer(account: FreshAccount)
    | PersistJournal(mutation: Mutation)
    | Submit(submitted: Message)
    | HandOff(handedOff: Message)
    | Finished

  type Answer = Result<Directive, WorkflowError>

  /** A reducer call: the new reducer value and its answer. */
  datatype Reduced = Reduced(workflow: Workflow, answer: Answer)

  function NewWorkflow(owner: Owner, request: Request, kind: Kind, hasSecret: bool): Workflow {
    Workflow(owner, request, kind, hasSecret, Validating, None, None, None, None)
  }

  /** Moves to the stage of `event`, or refuses and changes nothing. */
  function Advance(w: Workflow, event: Event): (Workflow, bool) {
    match Transition(w.stage, event)
    case None => (w, false)
    case Some(stage) => (w.(stage := stage), true)
  }

  function Refuse(w: Workflow, error: WorkflowError): Reduced {
    Reduced(w, Failure(error))
  }

  function BeginSend(w: Workflow): Reduced {
    var (next, ok) := Advance(w, Begin);
    if ok then Reduced(next, Success(LoadJournal)) else Refuse(w, InvalidTransition)
  }

  function LoadedJournal(w: Workflow, record: Option<JournalRecord>): Reduced {
    var (next, ok) := Advance(w, JournalLoaded);
    if !ok then Refuse(w, InvalidTransition)
    else
      match record
      case None => Reduced(next.(journalVersion := None), Success(FetchFreshAccount))
      case Some(current) =>
        match Decode(current)
        case Failure(error) => Refuse(w, error)
        case Success(durable) =>
          if durable.owner != w.owner then Refuse(w, InvalidJournal)
          else if durable.stage.PermitsReplacement() || (w.request.force && durable.stage.PermitsForcedReplacement())
          then Reduced(next.(journalVersion := Some(current.version)), Success(FetchFreshAccount))
          else Refuse(w, PreviousSubmissionUnresolved)
  }

  function LoadedFreshAccount(w: Workflow, account: FreshAccount): Reduced {
    var (next, ok) := Advance(w, FreshAccountLoaded);
    if !ok then Refuse(w, InvalidTransition)
    else if !account.PermitsSend() then Refuse(w, AccountUnavailable)
    else
      var loaded := next.(account := Some(account));
      if w.hasSecret then Reduced(loaded, Success(ReadProtectedSecret)) else Refuse(loaded, InvalidTransition)
  }

  function LoadedPreparedAccount(w: Workflow, account: FreshAccount): Reduced {
    var (next, ok) := Advance(w, PreparedAccountLoaded);
    if !ok then Refuse(w, InvalidTransition)
    else if !account.PermitsSend() then Refuse(w, AccountUnavailable)
    else Reduced(next.(account := Some(account)), Success(Finished))
  }

  function Authorized(w: Workflow): Reduced {
    var (next, ok) := Advance(w, AuthorizationSucceeded);
    if !ok || w.account.None? then Refuse(w, InvalidTransition)
    else Reduced(next, Success(PrepareTransfer(w.account.value)))
  }

  /** The signed material answers this request and this fresh account. */
  predicate Matches(w: Workflow, prepared: Prepared) {
    && w.account.Some?
    && prepared.operationId == w.request.operationId
    && prepared.owner == w.owner
    && prepared.message.kind == w.kind
    && prepared.batch == w.request.batch
    && (w.request.exact.Some? ==> prepared.message.validUntil == w.request.exact.value)
    && prepared.message.seqno == w.account.value.seqno
    && prepared.needsStateInit == w.account.value.NeedsStateInit()
  }

  function PreparedSend(w: Workflow, prepared: Prepared): Reduced {
    var (next, ok) := Advance(w, TransferPrepared);
    if !ok then Refuse(w, InvalidTransition)
    else if !Matches(w, prepared) then Refuse(w, PreparedTransferMismatch)
    else
      var holding := next.(prepared := Some(prepared));
      Reduced(holding, PersistDirective(holding))
  }

  /** The stage a journal write stores: a prepared message becomes durable in
      the stage that follows the write. */
  function RecordedStage(stage: Stage, kind: Kind): Stage {
    if stage != PersistingPrepared then stage
    else if kind == External then ReadyToSubmit
    else HandedOff
  }

  function RecordOf(w: Workflow): (r: DurableRecord)
    requires w.prepared.Some?
  {
    var p := w.prepared.value;
    DurableRecord(SCHEMA_VERSION, p.operationId, p.owner, p.message, p.batch, p.needsStateInit,
                  RecordedStage(w.stage, w.kind), w.diagnostic, None, None)
  }

  function PersistDirective(w: Workflow): Answer {
    if w.prepared.None? then Failure(InvalidTransition)
    else
      match NextVersion(w.journalVersion)
      case Failure(error) => Failure(error)
      case Success(version) =>
        Success(PersistJournal(Mutation(w.journalVersion, JournalRecord(version, Encoded(RecordOf(w))))))
  }

  function PersistedJournal(w: Workflow, result: CasResult): Reduced {
    if !result.applied then
      var (next, ok) := Advance(w, JournalConflict);
      if ok then Refuse(next.(diagnostic := Some("Another send operation changed the journal")), Conflicting)
      else Refuse(w, InvalidTransition)
    else
      var event :=
        if w.stage != PersistingPrepared then TerminalJournalPersisted
        else if w.kind == External then PreparedJournalPersisted
        else InternalMessageJournalPersisted;
      var (next, ok) := Advance(w, event);
      if !ok then Refuse(w, InvalidTransition)
      else
        match NextVersion(w.journalVersion)
        case Failure(error) => Refuse(w, error)
        case Success(version) =>
          var stored := next.(journalVersion := Some(version));
          match next.stage
          case ReadyToSubmit =>
            if w.prepared.None? then Refuse(stored, InvalidTransition)
            else Reduced(stored, Success(Submit(w.prepared.value.message)))
          case HandedOff =>
            if w.prepared.None? then Refuse(stored, InvalidTransition)
            else Reduced(stored, Success(HandOff(w.prepared.value.message)))
          case SubmissionUnknown => Reduced(stored, Success(Finished))
          case Submitted => Reduced(stored, Success(Finished))
          case Failed => Reduced(stored, Success(Finished))
          case Cancelled => Reduced(stored, Success(Finished))
          case _ => Refuse(stored, InvalidTransition)
  }

  function StartedSubmission(w: Workflow): Reduced {
    var (next, ok) := Advance(w, SubmissionStarted);
    if ok then Reduced(next, Success(Finished)) else Refuse(w, InvalidTransition)
  }

  /** The provider's answer to a submission, after classification
      (src/engine/send_http.rs). */
  datatype Reply = Accepted | Rejected(reason: string) | Ambiguous(cause: string)

  function Replied(w: Workflow, reply: Reply): Reduced {
    var event := match reply
      case Accepted => SubmissionSucceeded
      case Rejected(_) => SubmissionRejected
      case Ambiguous(_) => SubmissionAmbiguous;
    var (next, ok) := Advance(w, event);
    if !ok then Refuse(w, InvalidTransition)
    else
      var closing := next.(diagnostic := match reply
        case Accepted => None
        case Rejected(reason) => Some(reason)
        case Ambiguous(cause) => Some(cause));
      Reduced(closing, PersistDirective(closing))
  }

  function CancelledSend(w: Workflow): Reduced {
    var stage := w.stage.AfterCancellation();
    if stage == w.stage then Reduced(w, Success(Finished))
    else
      var next := w.(stage := stage);
      Reduced(next, if w.prepared.Some? then PersistDirective(next) else Success(Finished))
  }

  /** How the provider's response body or transport error becomes a reply. */
  datatype SendResponse = Ok | ErrorBody(message: string) | Malformed | Transport(status: Option<nat>, text: string)

  predicate IsExplicitRejection(status: Option<nat>) {
    status.Some? && status.value in {400, 401, 403, 404, 405, 413, 422, 429}
  }

  function ClassifyResponse(response: SendResponse): (reply: Reply)
    ensures reply.Rejected? <==> response.ErrorBody? || (response.Transport? && IsExplicitRejection(response.status))
    ensures reply.Accepted? <==> response.Ok?
  {
    match response
    case Ok => Accepted
    case ErrorBody(message) => Rejected(message)
    case Malformed => Ambiguous("invalid sendBoc success response")
    case Transport(status, text) => if IsExplicitRejection(status) then Rejected(text) else Ambiguous(text)
  }

  /** The reducer's commit is exact: the mutation it issues, once applied to a
      slot at the loaded version, stores precisely the prepared message, and
      only then does the reducer release that message. */
  lemma CommitReleasesStoredMessage(w: Workflow, prepared: Prepared, slot: Option<JournalRecord>)
    requires PreparedSend(w, prepared).answer.Success?
    requires SlotVersion(slot) == w.journalVersion
    ensures var persisting := PreparedSend(w, prepared);
            && persisting.answer.value.PersistJournal?
            && var mutation := persisting.answer.value.mutation;
               var (stored, result) := CompareExchange(slot, mutation);
               var released := PersistedJournal(persisting.workflow, result);
               && result.applied
               && stored == Some(mutation.replacement)
               && Decode(stored.value).Success?
               && Decode(stored.value).value.message == prepared.message
               && Decode(stored.value).value.stage == RecordedStage(PersistingPrepared, w.kind)
               && released.answer == Success(if w.kind == External then Submit(prepared.message)
                                             else HandOff(prepared.message))
               && released.workflow.journalVersion == Some(stored.value.version)
  {
    var persisting := PreparedSend(w, prepared);
    var mutation := persisting.answer.value.mutation;
    assert Decode(mutation.replacement) == Success(RecordOf(persisting.workflow));
  }

  /** A conflict releases nothing: no directive that hands a message out
      follows a failed write. */
  lemma ConflictReleasesNothing(w: Workflow, result: CasResult)
    requires !result.applied
    ensures PersistedJournal(w, result).answer.Failure?
    ensures w.stage == PersistingPrepared ==>
              PersistedJournal(w, result).answer == Failure(Conflicting)
              && PersistedJournal(w, result).workflow.stage == Failed
    ensures w.stage.IsTerminal() ==> PersistedJournal(w, result).workflow == w
  {
  }

  /** The mutable reducer object of the engine. */
  class SendWorkflow {
    const owner: Owner
    const request: Request
    const kind: Kind
    const hasSecret: bool
    var stage: Stage
    var account: Option<FreshAccount>
    var prepared: Option<Prepared>
    var journalVersion: Option<u64>
    var diagnostic: Option<string>

    function View(): Workflow
      reads this
    {
      Workflow(owner, request, kind, hasSecret, stage, account, prepared, journalVersion, diagnostic)
    }

    constructor (owner: Owner, request: Request, kind: Kind, hasSecret: bool)
      ensures View() == NewWorkflow(owner, request, kind, hasSecret)
    {
      this.owner, this.request, this.kind, this.hasSecret := owner, request, kind, hasSecret;
      stage, account, prepared, journalVersion, diagnostic := Validating, None, None, None, None;
    }

    /** Applies one event; on refusal nothing changes. */
    method ApplyEvent(event: Event) returns (ok: bool)
      modifies this`stage
      ensures (View(), ok) == Advance(old(View()), event)
    {
      match Transition(stage, event) {
        case Some(next) =>
          stage := next;
          ok := true;
        case None =>
          ok := false;
      }
    }

    method JournalWasLoaded(record: Option<JournalRecord>) returns (answer: Answer)
      modifies this`stage, this`journalVersion
      ensures Reduced(View(), answer) == LoadedJournal(old(View()), record)
    {
      var next := Transition(stage, JournalLoaded);
      if next.None? {
        return Failure(InvalidTransition);
      }
      var version: Option<u64> := None;
      if record.Some? {
        var decoded := Decode(record.value);
        if decoded.Failure? {
          return Failure(decoded.error);
        }
        var durable := decoded.value;
        if durable.owner != owner {
          return Failure(InvalidJournal);
        }
        if !durable.stage.PermitsReplacement() && !(request.force && durable.stage.PermitsForcedReplacement()) {
          return Failure(PreviousSubmissionUnresolved);
        }
        version := Some(record.value.version);
      }
      journalVersion := version;
      stage := next.value;
      answer := Success(FetchFreshAccount);
    }

    method TransferWasPrepared(transfer: Prepared) returns (answer: Answer)
      modifies this`stage, this`prepared
      ensures Reduced(View(), answer) == PreparedSend(old(View()), transfer)
    {
      var next := Transition(stage, TransferPrepared);
      if next.None? {
        return Failure(InvalidTransition);
      }
      if !Matches(View(), transfer) {
        return Failure(PreparedTransferMismatch);
      }
      prepared := Some(transfer);
      stage := next.value;
      answer := PersistDirective(View());
    }

    method JournalWasPersisted(result: CasResult) returns (answer: Answer)
      modifies this`stage, this`journalVersion, this`diagnostic
      ensures Reduced(View(), answer) == PersistedJournal(old(View()), result)
    {
      if !result.applied {
        var ok := ApplyEvent(JournalConflict);
        if !ok {
          return Failure(InvalidTransition);
        }
        diagnostic := Some("Another send operation changed the journal");
        return Failure(Conflicting);
      }
      var event := TerminalJournalPersisted;
      if stage == PersistingPrepared {
        event := if kind == External then PreparedJournalPersisted else InternalMessageJournalPersisted;
      }
      var next := Transition(stage, event);
      if next.None? {
        return Failure(InvalidTransition);
      }
      var version := NextVersion(journalVersion);
      if version.Failure? {
        return Failure(version.error);
      }
      journalVersion := Some(version.value);
      stage := next.value;
      match stage {
        case ReadyToSubmit =>
          if prepared.None? {
            return Failure(InvalidTransition);
          }
          answer := Success(Submit(prepared.value.message));
        case HandedOff =>
          if prepared.None? {
            return Failure(InvalidTransition);
          }
          answer := Success(HandOff(prepared.value.message));
        case SubmissionUnknown => answer := Success(Finished);
        case Submitted => answer := Success(Finished);
        case Failed => answer := Success(Finished);
        case Cancelled => answer := Success(Finished);
        case _ => answer := Failure(InvalidTransition);
      }
    }

    method SubmissionReplied(reply: Reply) returns (answer: Answer)
      modifies this`stage, this`diagnostic
      ensures Reduced(View(), answer) == Replied(old(View()), reply)
    {
      var ok: bool;
      match reply {
        case Accepted =>
          ok := ApplyEvent(SubmissionSucceeded);
          if ok { diagnostic := None; }
        case Rejected(reason) =>
          ok := ApplyEvent(SubmissionRejected);
          if ok { diagnostic := Some(reason); }
        case Ambiguous(cause) =>
          ok := ApplyEvent(SubmissionAmbiguous);
          if ok { diagnostic := Some(cause); }
      }
      if !ok {
        return Failure(InvalidTransition);
      }
      answer := PersistDirective(View());
    }

    method Cancel() returns (answer: Answer)
      modifies this`stage
      ensures Reduced(View(), answer) == CancelledSend(old(View()))
    {
      var next := stage.AfterCancellation();
      if next == stage {
        return Success(Finished);
      }
      stage := next;
      answer := if prepared.Some? then PersistDirective(View()) else Success(Finished);
    }
  }
}
