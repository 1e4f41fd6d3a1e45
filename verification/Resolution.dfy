/** Classification of a pending message from ordered provider evidence, and the
    optimistic loop that records the conclusion (src/engine/resolution.rs). */
module ResolutionRules {
  import opened Basics
  import opened Journal

  /** Provider time is strictly beyond the signed window and the margin. */
  predicate WindowExpired(providerTime: u64, validUntil: u64, margin: u64) {
    providerTime > SaturatingAdd(validUntil, margin)
  }

  /** Saturation never expires a message early: the test agrees with unbounded
      arithmetic for all machine values, and an overflowing deadline is never
      reached. */
  lemma WindowExpiredExact(providerTime: u64, validUntil: u64, margin: u64)
    ensures WindowExpired(providerTime, validUntil, margin)
            <==> providerTime as int > validUntil as int + margin as int
    ensures validUntil as int + margin as int > U64_MAX ==> !WindowExpired(providerTime, validUntil, margin)
  {
  }

  /** The next provider read of the resolver. */
  datatype Read =
    | InternalSeqno
    | FindExecuted
    | Mempool
    | Seqno(mempoolObserved: bool)
    | Recheck

  datatype Verdict = Ask(read: Read) | Conclude(resolution: Resolution)

  /** The optional pending-transactions lookup: a 404 or 405 is `Unsupported`,
      any other failure `Unavailable`. */
  datatype MempoolAnswer = Present | Absent | Unsupported | Unavailable

  function FirstRead(kind: Kind): Read {
    if kind == Internal then InternalSeqno else FindExecuted
  }

  function AfterInternalSeqno(pending: Pending, time: u64, margin: u64, seqno: nat): Verdict {
    if seqno > pending.durable.message.seqno then Conclude(Resolution.SequenceNumberConsumed)
    else if WindowExpired(time, pending.durable.message.validUntil, margin) then Conclude(Resolution.Expired)
    else Conclude(StillPending(AwaitingWindow))
  }

  function AfterExecuted(found: Option<Transaction>): Verdict {
    match found
    case Some(transaction) => Conclude(Resolution.Confirmed(transaction))
    case None => Ask(Mempool)
  }

  function AfterMempool(answer: MempoolAnswer): Verdict {
    match answer
    case Present => Conclude(StillPending(InMempool))
    case Absent => Ask(Seqno(true))
    case Unsupported => Ask(Seqno(true))
    case Unavailable => Ask(Seqno(false))
  }

  function AfterSeqno(pending: Pending, time: u64, margin: u64, seqno: nat, mempoolObserved: bool): Verdict {
    if seqno > pending.durable.message.seqno then Ask(Recheck)
    else if mempoolObserved && WindowExpired(time, pending.durable.message.validUntil, margin)
    then Conclude(Resolution.Expired)
    else Conclude(StillPending(AwaitingWindow))
  }

  function AfterRecheck(found: Option<Transaction>): Verdict {
    match found
    case Some(transaction) => Conclude(Resolution.Confirmed(transaction))
    case None => Conclude(Resolution.Replaced)
  }

  /** What the loop does with one compare-and-swap answer. */
  datatype PersistStep =
    | Done(resolution: Resolution, journal: JournalRecord)
    | Retry(pending: Pending)
    | GiveUp

  function AfterCas(pending: Pending, resolution: Resolution, replacement: JournalRecord, result: CasResult): PersistStep {
    if result.applied then Done(resolution, replacement)
    else if result.current.None? then GiveUp
    else
      var current := result.current.value;
      match TerminalSendResolution(current, pending.durable.owner)
      case Failure(_) => GiveUp
      case Success(Some(settled)) => Done(settled, current)
      case Success(None) =>
        match PendingSendRecord(current, pending.durable.owner)
        case Failure(_) => GiveUp
        case Success(None) => GiveUp
        case Success(Some(now)) =>
          if now.durable.operationId != pending.durable.operationId || now.durable.message != pending.durable.message
          then GiveUp
          else Retry(now)
  }

  const PERSIST_TRIES: nat := 3

  /** The host's journal slot with every record it has ever held, newest last. */
  class JournalHost {
    var history: seq<JournalRecord>

    predicate Valid()
      reads this
    {
      forall i :: 0 <= i < |history| ==> history[i].version as int == i + 1
    }

    function Slot(): Option<JournalRecord>
      reads this
    {
      if history == [] then None else Some(history[|history| - 1])
    }

    /** Atomic compare and swap of one durable slot. */
    method CompareExchangeJournal(mutation: Mutation) returns (result: CasResult)
      requires Valid()
      requires mutation.replacement.version as int == mutation.expected.GetOr(0) + 1
      modifies this
      ensures Valid()
      ensures (Slot(), result) == CompareExchange(old(Slot()), mutation)
      ensures history == if result.applied then old(history) + [mutation.replacement] else old(history)
    {
      if SlotVersion(Slot()) == mutation.expected {
        history := history + [mutation.replacement];
        result := CasResult(true, Some(mutation.replacement));
      } else {
        result := CasResult(false, Slot());
      }
    }

    /** Successful writes of other clients, in the order the slot accepted them. */
    method Interfere(payloads: seq<Payload>)
      requires Valid() && |history| + |payloads| <= U64_MAX
      modifies this
      ensures Valid()
      ensures old(history) <= history && |history| == old(|history|) + |payloads|
    {
      for i := 0 to |payloads|
        invariant Valid()
        invariant old(history) <= history && |history| == old(|history|) + i
      {
        history := history + [JournalRecord(|history| + 1, payloads[i])];
      }
    }
  }

  /** A record another resolver may overwrite: the same operation's message,
      still unsettled. */
  predicate SameUnsettled(record: JournalRecord, pending: Pending) {
    && Decode(record).Success?
    && Decode(record).value.owner == pending.durable.owner
    && Decode(record).value.operationId == pending.durable.operationId
    && Decode(record).value.message == pending.durable.message
    && !Decode(record).value.stage.PermitsReplacement()
  }

  /** The record at `own` settles the unsettled record of the same operation and
      message that stood right before it. */
  ghost predicate OwnWriteAt(history: seq<JournalRecord>, own: nat, pending: Pending, resolution: Resolution) {
    && 0 < own < |history|
    && SameUnsettled(history[own - 1], pending)
    && !resolution.StillPending?
    && history[own].payload == Encoded(Resolved(Decode(history[own - 1]).value, resolution))
  }

  /** A compare-and-swap call answers, or fails before or after the write landed. */
  datatype Fault = Works | FailsBefore | FailsAfter

  /** One attempt of the loop, after any writes of other clients. */
  method PersistOnce(host: JournalHost, pending: Pending, resolution: Resolution, others: seq<Payload>, fault: Fault)
    returns (step: Option<PersistStep>, own: Option<nat>)
    requires host.Valid() && |host.history| + |others| < U64_MAX
    requires PendingSendRecord(pending.journal, pending.durable.owner) == Success(Some(pending))
    requires pending.journal in host.history
    modifies host
    ensures host.Valid() && old(host.history) <= host.history
    ensures |host.history| == |old(host.history)| + |others| + (if own.Some? then 1 else 0)
    ensures own.Some? ==> own.value == |host.history| - 1 && OwnWriteAt(host.history, own.value, pending, resolution)
    ensures step.Some? ==> host.Slot().Some?
    ensures step.Some? && step.value.Done? ==>
              && step.value.journal == host.Slot().value
              && (if own.Some? then step.value.resolution == resolution
                  else TerminalSendResolution(step.value.journal, pending.durable.owner)
                       == Success(Some(step.value.resolution)))
    ensures step.Some? && step.value.Retry? ==>
              && own.None?
              && step.value.pending.journal == host.Slot().value
              && PendingSendRecord(step.value.pending.journal, pending.durable.owner) == Success(Some(step.value.pending))
              && SameUnsettled(step.value.pending.journal, pending)
  {
    step, own := None, None;
    host.Interfere(others);
    var mutation := TerminalMutation(pending, resolution);
    if mutation.Failure? || mutation.value.None? || fault == FailsBefore {
      return;
    }
    var result := host.CompareExchangeJournal(mutation.value.value);
    if result.applied {
      own := Some(|host.history| - 1);
    }
    if fault == Works {
      step := Some(AfterCas(pending, resolution, mutation.value.value.replacement, result));
    }
  }

  /** Writes of other clients before the first `k` attempts. */
  function Grown(others: seq<seq<Payload>>, k: nat): nat
    requires k <= |others|
  {
    if k == 0 then 0 else Grown(others, k - 1) + |others[k - 1]|
  }

  lemma GrownMonotone(others: seq<seq<Payload>>, j: nat, k: nat)
    requires j <= k <= |others|
    ensures Grown(others, j) <= Grown(others, k)
  {
  }

  /** Records terminal evidence against any interference: before each of the
      three attempts other clients may complete any number of writes, and the
      host may fail with or without storing. The loop overwrites nothing but an
      unsettled record of the same operation and message, at most once, and
      every success it reports is a record the slot really held. */
  method PersistSendResolution(host: JournalHost, loaded: Pending, resolution: Resolution,
                               others: seq<seq<Payload>>, faults: seq<Fault>)
    returns (r: Result<(Resolution, JournalRecord), string>, own: Option<nat>)
    requires host.Valid()
    requires PendingSendRecord(loaded.journal, loaded.durable.owner) == Success(Some(loaded))
    requires loaded.journal in host.history
    requires |others| == |faults| == PERSIST_TRIES
    requires |host.history| + Grown(others, PERSIST_TRIES) < U64_MAX
    modifies host
    ensures host.Valid() && old(host.history) <= host.history
    ensures |host.history| <= |old(host.history)| + Grown(others, PERSIST_TRIES) + (if own.Some? then 1 else 0)
    ensures own.Some? ==> OwnWriteAt(host.history, own.value, loaded, resolution) && own.value >= |old(host.history)|
    ensures r.Success? ==> host.Slot() == Some(r.value.1)
    ensures r.Success? && own.Some? ==> r.value.0 == resolution && host.history[own.value] == r.value.1
    ensures r.Success? && own.None? ==>
              TerminalSendResolution(r.value.1, loaded.durable.owner) == Success(Some(r.value.0))
  {
    var pending := loaded;
    own := None;
    for k := 0 to PERSIST_TRIES
      invariant host.Valid() && old(host.history) <= host.history
      invariant own.None?
      invariant PendingSendRecord(pending.journal, pending.durable.owner) == Success(Some(pending))
      invariant SameUnsettled(pending.journal, loaded)
      invariant pending.journal in host.history
      invariant |host.history| == |old(host.history)| + Grown(others, k)
    {
      GrownMonotone(others, k + 1, PERSIST_TRIES);
      var step: Option<PersistStep>;
      step, own := PersistOnce(host, pending, resolution, others[k], faults[k]);
      if step.None? {
        return Failure("resolution could not be recorded"), own;
      }
      match step.value {
        case Done(settled, journal) =>
          return Success((settled, journal)), own;
        case Retry(now) =>
          pending := now;
        case GiveUp =>
          return Failure("another writer changed the send journal"), own;
      }
    }
    return Failure("send journal remained contended during resolution"), None;
  }
}
