/** The durable outgoing-send slot: stages, records, and the forward-only
    compare-and-swap mutations that change it
    (src/domain/journal.rs, src/wallet/send.rs). */
module Journal {
  import opened Basics

  datatype Kind = External | Internal

  /** A complete signed wallet message. Two messages are the same message
      exactly when their hashes agree, so message equality models the hash
      comparisons of the source. */
  datatype Message = Message(hash: nat, kind: Kind, seqno: nat, validUntil: u64)

  /** The application record and the address that own one journal slot. */
  datatype Owner = Owner(recordId: string, source: string)

  datatype Stage =
    | Validating
    | LoadingJournal
    | FetchingFreshAccount
    | Authorizing
    | Preparing
    | PersistingPrepared
    | ReadyToSubmit
    | Submitting
    | SubmissionUnknown
    | Submitted
    | HandedOff
    | Confirmed
    | Replaced
    | SequenceNumberConsumed
    | Expired
    | Superseded
    | Failed
    | Cancelled
  {
    predicate IsTerminal() {
      SubmissionUnknown? || Submitted? || HandedOff? || Confirmed? || Replaced? ||
      SequenceNumberConsumed? || Expired? || Superseded? || Failed? || Cancelled?
    }

    /** Durable evidence settled the message, so a new signature is allowed. */
    predicate PermitsReplacement() {
      Confirmed? || Replaced? || SequenceNumberConsumed? || Expired? || Superseded? || Failed? || Cancelled?
    }

    /** A complete signed message that an explicit override may replace. */
    predicate PermitsForcedReplacement() {
      ReadyToSubmit? || Submitting? || SubmissionUnknown? || Submitted? || HandedOff?
    }

    function AfterCancellation(): Stage {
      if IsTerminal() then this else Cancelled
    }
  }

  datatype Event =
    | Begin
    | JournalLoaded
    | FreshAccountLoaded
    | PreparedAccountLoaded
    | AuthorizationSucceeded
    | TransferPrepared
    | PreparedJournalPersisted
    | InternalMessageJournalPersisted
    | SubmissionStarted
    | SubmissionSucceeded
    | SubmissionAmbiguous
    | SubmissionRejected
    | TerminalJournalPersisted
    | JournalConflict
    | Cancel

  /** The stage table of the send reducer; `None` marks an event out of order. */
  function Transition(stage: Stage, event: Event): Option<Stage> {
    match (stage, event)
    case (Validating, Begin) => Some(LoadingJournal)
    case (LoadingJournal, JournalLoaded) => Some(FetchingFreshAccount)
    case (FetchingFreshAccount, FreshAccountLoaded) => Some(Authorizing)
    case (FetchingFreshAccount, PreparedAccountLoaded) => Some(Preparing)
    case (Authorizing, AuthorizationSucceeded) => Some(Preparing)
    case (Preparing, TransferPrepared) => Some(PersistingPrepared)
    case (PersistingPrepared, PreparedJournalPersisted) => Some(ReadyToSubmit)
    case (PersistingPrepared, InternalMessageJournalPersisted) => Some(HandedOff)
    case (ReadyToSubmit, SubmissionStarted) => Some(Submitting)
    case (Submitting, SubmissionSucceeded) => Some(Submitted)
    case (Submitting, SubmissionAmbiguous) => Some(SubmissionUnknown)
    case (Submitting, SubmissionRejected) => Some(Failed)
    case (SubmissionUnknown, TerminalJournalPersisted) => Some(stage)
    case (Submitted, TerminalJournalPersisted) => Some(stage)
    case (HandedOff, TerminalJournalPersisted) => Some(stage)
    case (Failed, TerminalJournalPersisted) => Some(stage)
    case (Cancelled, TerminalJournalPersisted) => Some(stage)
    case (_, JournalConflict) => if stage.IsTerminal() then None else Some(Failed)
    case (_, Cancel) => Some(stage.AfterCancellation())
    case _ => None
  }

  /** Stage reached after a list of events; an event out of order is ignored. */
  function StageAfter(events: seq<Event>): Stage {
    if events == [] then Validating
    else
      var before := StageAfter(events[..|events| - 1]);
      match Transition(before, events[|events| - 1])
      case Some(next) => next
      case None => before
  }

  /** Some prefix of the events made the prepared message durable. */
  ghost predicate MadeDurable(events: seq<Event>) {
    exists k :: 0 <= k < |events| && CommitsAt(events, k)
  }

  ghost predicate CommitsAt(events: seq<Event>, k: nat)
    requires k < |events|
  {
    StageAfter(events[..k]) == PersistingPrepared
    && events[k] in {PreparedJournalPersisted, InternalMessageJournalPersisted}
  }

  /** Whatever order events arrive in, and however many there are, a stage in
      which the message may have left the wallet follows a durable commit. */
  lemma {:induction false} NoSubmissionBeforeCommit(events: seq<Event>)
    requires StageAfter(events) in {ReadyToSubmit, Submitting, SubmissionUnknown, Submitted, HandedOff}
    ensures MadeDurable(events)
  {
    var last := |events| - 1;
    var before := events[..last];
    if StageAfter(before) == PersistingPrepared {
      assert CommitsAt(events, last);
    } else {
      NoSubmissionBeforeCommit(before);
      var k :| 0 <= k < |before| && CommitsAt(before, k);
      assert events[..k] == before[..k];
      assert CommitsAt(events, k);
    }
  }

  /** Terminal stages absorb every further list of events. */
  lemma {:induction false} TerminalAbsorbs(events: seq<Event>, more: seq<Event>)
    requires StageAfter(events).IsTerminal()
    ensures StageAfter(events + more) == StageAfter(events)
  {
    if more == [] {
      assert events + more == events;
    } else {
      var init := more[..|more| - 1];
      TerminalAbsorbs(events, init);
      assert (events + more)[..|events + more| - 1] == events + init;
    }
  }

  /** Exactly three terminal stages still block a new signature. The bounded proof
      in src/wallet/send.rs lists two of them and leaves `HandedOff` out. */
  lemma TerminalButBlocking(stage: Stage)
    ensures stage.IsTerminal() && !stage.PermitsReplacement()
            <==> stage in {SubmissionUnknown, Submitted, HandedOff}
    ensures stage.PermitsReplacement() ==> stage.IsTerminal() && !stage.PermitsForcedReplacement()
  {
  }

  datatype Transaction = Transaction(hash: nat, lt: nat)

  datatype DurableRecord = DurableRecord(
    schemaVersion: nat,
    operationId: string,
    owner: Owner,
    message: Message,
    batch: seq<string>,
    needsStateInit: bool,
    stage: Stage,
    diagnostic: Option<string>,
    confirmedHash: Option<nat>,
    confirmedLt: Option<nat>)

  /** Payload bytes: the encoding of a record, or bytes that do not decode. */
  datatype Payload = Encoded(record: DurableRecord) | Undecodable

  datatype JournalRecord = JournalRecord(version: u64, payload: Payload)

  datatype Mutation = Mutation(expected: Option<u64>, replacement: JournalRecord)

  datatype CasResult = CasResult(applied: bool, current: Option<JournalRecord>)

  datatype WorkflowError =
    | InvalidTransition
    | PreparedTransferMismatch
    | Conflicting
    | PreviousSubmissionUnresolved
    | AccountUnavailable
    | InvalidJournal

  const SCHEMA_VERSION: nat := 5
  const FIRST_VERSION: u64 := 1

  function SlotVersion(slot: Option<JournalRecord>): Option<u64> {
    match slot
    case None => None
    case Some(record) => Some(record.version)
  }

  /** The atomic host operation of src/engine/host.rs: store on a version match,
      otherwise leave the slot alone and report it. */
  function CompareExchange(slot: Option<JournalRecord>, mutation: Mutation): (Option<JournalRecord>, CasResult) {
    if SlotVersion(slot) == mutation.expected
    then (Some(mutation.replacement), CasResult(true, Some(mutation.replacement)))
    else (slot, CasResult(false, slot))
  }

  function NextVersion(current: Option<u64>): (r: Result<u64, WorkflowError>)
    ensures r.Failure? <==> current == Some(U64_MAX)
    ensures r.Success? ==> r.value > 0 && (current.Some? ==> r.value == current.value + 1)
  {
    match current
    case None => Success(FIRST_VERSION)
    case Some(version) =>
      match CheckedIncrement(version)
      case None => Failure(InvalidJournal)
      case Some(next) => Success(next)
  }

  function Decode(record: JournalRecord): Result<DurableRecord, WorkflowError> {
    if record.version == 0 || record.payload.Undecodable? then Failure(InvalidJournal)
    else
      var durable := record.payload.record;
      if durable.schemaVersion != SCHEMA_VERSION then Failure(InvalidJournal)
      else if durable.stage == Stage.Confirmed
              && (durable.confirmedHash.None? || durable.confirmedLt.None? || durable.confirmedLt.value > U64_MAX)
      then Failure(InvalidJournal)
      else Success(durable)
  }

  /** A durable signed message that still blocks a new signature, with the
      exact journal version that was inspected. */
  datatype Pending = Pending(version: u64, durable: DurableRecord, journal: JournalRecord)

  function PendingSendRecord(record: JournalRecord, owner: Owner): Result<Option<Pending>, WorkflowError> {
    match Decode(record)
    case Failure(error) => Failure(error)
    case Success(durable) =>
      if durable.owner != owner then Failure(InvalidJournal)
      else if durable.stage.PermitsReplacement() then Success(None)
      else Success(Some(Pending(record.version, durable, record)))
  }

  datatype PendingReason = InMempool | AwaitingWindow

  datatype Resolution =
    | Confirmed(transaction: Transaction)
    | Replaced
    | SequenceNumberConsumed
    | Expired
    | StillPending(reason: PendingReason)

  function TerminalSendResolution(record: JournalRecord, owner: Owner): Result<Option<Resolution>, WorkflowError> {
    match Decode(record)
    case Failure(error) => Failure(error)
    case Success(durable) =>
      if durable.owner != owner then Failure(InvalidJournal)
      else
        match durable.stage
        case Confirmed =>
          if durable.confirmedHash.None? || durable.confirmedLt.None? then Failure(InvalidJournal)
          else Success(Some(Resolution.Confirmed(
                              Transaction(durable.confirmedHash.value, durable.confirmedLt.value))))
        case Replaced => Success(Some(Resolution.Replaced))
        case SequenceNumberConsumed => Success(Some(Resolution.SequenceNumberConsumed))
        case Expired => Success(Some(Resolution.Expired))
        case _ => Success(None)
  }

  function ResolvedStage(resolution: Resolution): Stage
    requires !resolution.StillPending?
  {
    match resolution
    case Confirmed(_) => Stage.Confirmed
    case Replaced => Stage.Replaced
    case SequenceNumberConsumed => Stage.SequenceNumberConsumed
    case Expired => Stage.Expired
  }

  function Resolved(durable: DurableRecord, resolution: Resolution): DurableRecord
    requires !resolution.StillPending?
  {
    durable.(
      stage := ResolvedStage(resolution),
      diagnostic := None,
      confirmedHash := if resolution.Confirmed? then Some(resolution.transaction.hash) else None,
      confirmedLt := if resolution.Confirmed? then Some(resolution.transaction.lt) else None)
  }

  /** The forward-only mutation for terminal evidence. Missing evidence gives
      no mutation at all. */
  function TerminalMutation(pending: Pending, resolution: Resolution): Result<Option<Mutation>, WorkflowError> {
    if resolution.StillPending? then Success(None)
    else
      match NextVersion(Some(pending.version))
      case Failure(error) => Failure(error)
      case Success(version) =>
        Success(Some(Mutation(Some(pending.version),
                              JournalRecord(version, Encoded(Resolved(pending.durable, resolution))))))
  }

  /** What the resolver writes it reads back: a written resolution decodes to
      itself, unblocks the slot, and keeps the message, operation, owner, and
      batch of the record it settles. */
  lemma TerminalMutationRoundTrip(record: JournalRecord, owner: Owner, resolution: Resolution)
    requires PendingSendRecord(record, owner).Success?
    requires PendingSendRecord(record, owner).value.Some?
    requires record.version < U64_MAX
    requires !resolution.StillPending?
    requires resolution.Confirmed? ==> resolution.transaction.lt <= U64_MAX
    ensures var pending := PendingSendRecord(record, owner).value.value;
            var written := TerminalMutation(pending, resolution);
            && written.Success? && written.value.Some?
            && var mutation := written.value.value;
               && mutation.expected == Some(record.version)
               && mutation.replacement.version == record.version + 1
               && CompareExchange(Some(record), mutation) ==
                  (Some(mutation.replacement), CasResult(true, Some(mutation.replacement)))
               && TerminalSendResolution(mutation.replacement, owner) == Success(Some(resolution))
               && PendingSendRecord(mutation.replacement, owner) == Success(None)
               && mutation.replacement.payload.record.(
                    stage := pending.durable.stage,
                    diagnostic := pending.durable.diagnostic,
                    confirmedHash := pending.durable.confirmedHash,
                    confirmedLt := pending.durable.confirmedLt) == pending.durable
  {
    var pending := PendingSendRecord(record, owner).value.value;
    var replacement := TerminalMutation(pending, resolution).value.value.replacement;
    assert Decode(replacement) == Success(Resolved(pending.durable, resolution));
  }
}
