/** The chain the resolver observes: a wallet log, a clock, and a provider index
    that lags behind, together with the soundness of the resolver's verdicts. */
module ChainModel {
  import opened Basics
  import opened Journal
  import opened ResolutionRules

  /** One transaction of the wallet. The transaction at position `i` consumed
      sequence number `i`. */
  datatype Entry = Entry(message: Message, time: nat, lt: u64)

  /** `indexed` counts the transactions that provider reads can see. */
  datatype Chain = Chain(log: seq<Entry>, clock: nat, indexed: nat)

  /** A message executes at its own sequence number and inside its window, and
      the index is at most `lag` seconds behind the clock. */
  ghost predicate Valid(c: Chain, lag: nat) {
    && c.indexed <= |c.log|
    && (forall i :: 0 <= i < |c.log| ==> ValidEntry(c.log[i], i, c.clock))
    && (forall i :: c.indexed <= i < |c.log| ==> c.log[i].time + lag >= c.clock)
  }

  predicate ValidEntry(e: Entry, position: nat, clock: nat) {
    e.message.seqno == position && e.time <= e.message.validUntil && e.time <= clock
  }

  /** `d` is a later state of the chain `c`. */
  ghost predicate Extends(c: Chain, d: Chain) {
    && c.log <= d.log
    && c.clock <= d.clock
    && c.indexed <= d.indexed
    && (forall i :: |c.log| <= i < |d.log| ==> d.log[i].time >= c.clock)
  }

  lemma ExtendsTransitive(c: Chain, d: Chain, e: Chain)
    requires Extends(c, d) && Extends(d, e)
    ensures Extends(c, e)
  {
    forall i | |c.log| <= i < |e.log|
      ensures e.log[i].time >= c.clock
    {
      if i < |d.log| {
        assert e.log[i] == d.log[i];
      }
    }
  }

  predicate Executed(c: Chain, m: Message) {
    exists i :: 0 <= i < |c.log| && c.log[i].message == m
  }

  /** No later chain state can execute the message. */
  predicate Dead(c: Chain, m: Message) {
    |c.log| > m.seqno || c.clock > m.validUntil
  }

  /** The position of a message among the first `n` transactions. */
  function Position(log: seq<Entry>, n: nat, m: Message): (r: Option<nat>)
    requires n <= |log|
    ensures r.Some? ==> r.value < n && log[r.value].message == m
    ensures r.None? ==> forall i :: 0 <= i < n ==> log[i].message != m
  {
    if n == 0 then None
    else if log[n - 1].message == m then Some(n - 1)
    else Position(log, n - 1, m)
  }

  /** The provider's transaction lookup by inbound message. */
  function Lookup(c: Chain, m: Message): (r: Option<Transaction>)
    requires c.indexed <= |c.log|
  {
    match Position(c.log, c.indexed, m)
    case None => None
    case Some(i) => Some(Transaction(i, c.log[i].lt))
  }

  /** What a recorded resolution claims about the message. */
  ghost predicate Sound(c: Chain, m: Message, r: Resolution) {
    match r
    case Confirmed(tx) => tx.hash < |c.log| && c.log[tx.hash].message == m && c.log[tx.hash].lt == tx.lt
    case Replaced => m.seqno < |c.log| && !Executed(c, m)
    case SequenceNumberConsumed => m.seqno < |c.log|
    case Expired => c.clock > m.validUntil && !Executed(c, m)
    case StillPending(_) => true
  }

  /** A message that can no longer execute keeps its fate in every later state. */
  lemma DeadStaysDead(c: Chain, d: Chain, m: Message, lag: nat)
    requires Valid(d, lag) && Extends(c, d) && Dead(c, m)
    ensures Dead(d, m)
    ensures Executed(d, m) <==> Executed(c, m)
  {
    if i :| 0 <= i < |d.log| && d.log[i].message == m {
      assert ValidEntry(d.log[i], i, d.clock);
      assert i < |c.log|;
      assert c.log[i] == d.log[i];
    }
    if i :| 0 <= i < |c.log| && c.log[i].message == m {
      assert d.log[i] == c.log[i];
    }
  }

  /** A sound resolution stays sound whatever the chain does next. */
  lemma SoundStable(c: Chain, d: Chain, m: Message, r: Resolution, lag: nat)
    requires Valid(d, lag) && Extends(c, d) && Sound(c, m, r)
    ensures Sound(d, m, r)
  {
    if r.Replaced? || r.Expired? {
      DeadStaysDead(c, d, m, lag);
    }
  }

  /** One provider read against the index, and the resolver's reaction. */
  function ReadVerdict(c: Chain, p: Pending, time: u64, margin: u64, read: Read, mempool: MempoolAnswer): Verdict
    requires c.indexed <= |c.log|
  {
    match read
    case InternalSeqno => AfterInternalSeqno(p, time, margin, c.indexed)
    case FindExecuted => AfterExecuted(Lookup(c, p.durable.message))
    case Mempool => AfterMempool(mempool)
    case Seqno(observed) => AfterSeqno(p, time, margin, c.indexed, observed)
    case Recheck => AfterRecheck(Lookup(c, p.durable.message))
  }

  /** The resolution is sound; for `Expired` this is claimed only while the
      index lag stays within the margin. */
  ghost predicate Holds(c: Chain, m: Message, r: Resolution, margin: u64, lag: nat) {
    (r.Expired? ==> lag <= margin) ==> Sound(c, m, r)
  }

  lemma HoldsStable(c: Chain, d: Chain, m: Message, r: Resolution, margin: u64, lag: nat)
    requires Valid(d, lag) && Extends(c, d) && Holds(c, m, r, margin, lag)
    ensures Holds(d, m, r, margin, lag)
  {
    if Sound(c, m, r) {
      SoundStable(c, d, m, r, lag);
    }
  }

  /** What the resolver has established before it performs `read`. */
  ghost predicate Established(c: Chain, m: Message, time: u64, margin: u64, read: Read, lag: nat) {
    && time <= c.clock
    && (read.Mempool? || read.Seqno? ==>
          lag <= margin && WindowExpired(time, m.validUntil, margin) ==> !Executed(c, m))
    && (read.Recheck? ==> m.seqno < c.indexed)
  }

  lemma EstablishedStable(c: Chain, d: Chain, m: Message, time: u64, margin: u64, read: Read, lag: nat)
    requires Valid(d, lag) && Extends(c, d) && Established(c, m, time, margin, read, lag)
    ensures Established(d, m, time, margin, read, lag)
  {
    if (read.Mempool? || read.Seqno?) && WindowExpired(time, m.validUntil, margin) {
      DeadStaysDead(c, d, m, lag);
    }
  }

  /** An index within the margin shows every execution of an expired message. */
  lemma ExpiredIsIndexed(c: Chain, m: Message, time: u64, margin: u64, lag: nat)
    requires Valid(c, lag) && lag <= margin && time <= c.clock
    requires WindowExpired(time, m.validUntil, margin)
    ensures forall i :: c.indexed <= i < |c.log| ==> c.log[i].message != m
  {
    forall i | c.indexed <= i < |c.log|
      ensures c.log[i].message != m
    {
      assert ValidEntry(c.log[i], i, c.clock);
    }
  }

  /** Each read either establishes the next read's premise or a sound verdict. */
  lemma ReadVerdictSound(c: Chain, p: Pending, time: u64, margin: u64, read: Read, mempool: MempoolAnswer, lag: nat)
    requires Valid(c, lag)
    requires Established(c, p.durable.message, time, margin, read, lag)
    ensures match ReadVerdict(c, p, time, margin, read, mempool)
            case Ask(next) => Established(c, p.durable.message, time, margin, next, lag)
            case Conclude(r) => Holds(c, p.durable.message, r, margin, lag)
  {
    var m := p.durable.message;
    if lag <= margin && WindowExpired(time, m.validUntil, margin) {
      ExpiredIsIndexed(c, m, time, margin, lag);
    }
    match read {
      case InternalSeqno =>
        if c.indexed <= m.seqno {
          forall i | 0 <= i < c.indexed
            ensures c.log[i].message != m
          {
            assert ValidEntry(c.log[i], i, c.clock);
          }
        }
      case FindExecuted =>
      case Mempool =>
      case Seqno(_) =>
      case Recheck =>
        forall i | c.indexed <= i < |c.log|
          ensures c.log[i].message != m
        {
          assert ValidEntry(c.log[i], i, c.clock);
        }
    }
  }

  /** Reads still needed from `read` on, at most. */
  function ReadsLeft(read: Read): nat {
    match read
    case InternalSeqno => 1
    case FindExecuted => 4
    case Mempool => 3
    case Seqno(_) => 2
    case Recheck => 1
  }

  /** Successive chain states, oldest first. */
  ghost predicate Successive(states: seq<Chain>, lag: nat) {
    && (forall i :: 0 <= i < |states| ==> Valid(states[i], lag))
    && (forall i :: 0 <= i < |states| - 1 ==> Extends(states[i], states[i + 1]))
  }

  /** The complete evidence algorithm, each read against its own chain state. */
  function Classify(states: seq<Chain>, p: Pending, time: u64, margin: u64, read: Read, mempool: MempoolAnswer)
    : Resolution
    requires |states| >= ReadsLeft(read)
    requires forall i :: 0 <= i < |states| ==> states[i].indexed <= |states[i].log|
    decreases ReadsLeft(read)
  {
    match ReadVerdict(states[0], p, time, margin, read, mempool)
    case Conclude(r) => r
    case Ask(next) => Classify(states[1..], p, time, margin, next, mempool)
  }

  /** Every classification is sound at the last observed state, hence, by
      `HoldsStable`, in every later one: a confirmed message executed, and a
      replaced or expired one never did and never can. Only `Expired` depends
      on the index lag. */
  lemma {:induction false} ClassifySound(states: seq<Chain>, p: Pending, time: u64, margin: u64, read: Read,
                                         mempool: MempoolAnswer, lag: nat)
    requires |states| >= ReadsLeft(read) && Successive(states, lag)
    requires Established(states[0], p.durable.message, time, margin, read, lag)
    ensures Holds(states[|states| - 1], p.durable.message,
                  Classify(states, p, time, margin, read, mempool), margin, lag)
    decreases ReadsLeft(read)
  {
    ReadVerdictSound(states[0], p, time, margin, read, mempool, lag);
    match ReadVerdict(states[0], p, time, margin, read, mempool) {
      case Ask(next) =>
        EstablishedStable(states[0], states[1], p.durable.message, time, margin, next, lag);
        ClassifySound(states[1..], p, time, margin, next, mempool, lag);
      case Conclude(r) =>
        HoldsAtLast(states, p.durable.message, r, margin, lag);
    }
  }

  lemma {:induction false} HoldsAtLast(states: seq<Chain>, m: Message, r: Resolution, margin: u64, lag: nat)
    requires |states| > 0 && Successive(states, lag) && Holds(states[0], m, r, margin, lag)
    ensures Holds(states[|states| - 1], m, r, margin, lag)
    decreases |states|
  {
    if |states| > 1 {
      HoldsStable(states[0], states[1], m, r, margin, lag);
      HoldsAtLast(states[1..], m, r, margin, lag);
    }
  }

  /** `Expired` is trustworthy for every scenario under this lag and margin. */
  ghost predicate ExpiredTrustworthy(margin: u64, lag: nat) {
    forall states: seq<Chain>, p: Pending, time: u64, mempool: MempoolAnswer ::
      (|states| == 4 && Successive(states, lag) && time <= states[0].clock
       && Classify(states, p, time, margin, FirstRead(p.durable.message.kind), mempool) == Resolution.Expired)
      ==> !Executed(states[3], p.durable.message)
  }

  /** The margin is exact: an expired verdict is trustworthy if and only if the
      index never lags by more than the margin, or the margin is so large that
      no window ever closes. */
  lemma ExpiredTrustworthyIff(margin: u64, lag: nat)
    ensures ExpiredTrustworthy(margin, lag) <==> lag <= margin || margin == U64_MAX
  {
    if lag <= margin || margin == U64_MAX {
      forall states: seq<Chain>, p: Pending, time: u64, mempool: MempoolAnswer |
        |states| == 4 && Successive(states, lag) && time <= states[0].clock
        && Classify(states, p, time, margin, FirstRead(p.durable.message.kind), mempool) == Resolution.Expired
        ensures !Executed(states[3], p.durable.message)
      {
        var first := FirstRead(p.durable.message.kind);
        if margin == U64_MAX {
          NeverExpires(states, p, time, margin, first, mempool);
        } else {
          ClassifySound(states, p, time, margin, first, mempool, lag);
        }
      }
    } else {
      LaggingIndexMisleads(margin, lag);
    }
  }

  lemma {:induction false} NeverExpires(states: seq<Chain>, p: Pending, time: u64, margin: u64, read: Read,
                                        mempool: MempoolAnswer)
    requires |states| >= ReadsLeft(read) && margin == U64_MAX
    requires forall i :: 0 <= i < |states| ==> states[i].indexed <= |states[i].log|
    ensures Classify(states, p, time, margin, read, mempool) != Resolution.Expired
    decreases ReadsLeft(read)
  {
    match ReadVerdict(states[0], p, time, margin, read, mempool) {
      case Ask(next) => NeverExpires(states[1..], p, time, margin, next, mempool);
      case Conclude(_) =>
    }
  }

  function SamplePending(m: Message): Pending {
    var durable := DurableRecord(SCHEMA_VERSION, "payment", Owner("wallet", "0:1"), m, [], false,
                                 ReadyToSubmit, None, None, None);
    Pending(1, durable, JournalRecord(1, Encoded(durable)))
  }

  /** An index one second slower than the margin lets an executed payment be
      reported as expired. */
  lemma LaggingIndexMisleads(margin: u64, lag: nat)
    requires margin < lag && margin < U64_MAX
    ensures !ExpiredTrustworthy(margin, lag)
  {
    var m := Message(7, External, 0, 0);
    var p := SamplePending(m);
    var c := Chain([Entry(m, 0, 1)], margin + 1, 0);
    var states := [c, c, c, c];
    assert c.log[0].message == m;
    assert Successive(states, lag);
    var time: u64 := margin + 1;
    assert ReadVerdict(c, p, time, margin, FindExecuted, Absent) == Ask(Mempool);
    assert ReadVerdict(c, p, time, margin, Seqno(true), Absent) == Conclude(Resolution.Expired);
    assert Classify(states[2..], p, time, margin, Seqno(true), Absent) == Resolution.Expired;
    assert states[1..][1..] == states[2..];
    assert Classify(states, p, time, margin, FirstRead(p.durable.message.kind), Absent) == Resolution.Expired;
    assert Executed(states[3], p.durable.message);
  }

  /** The recheck cannot be dropped: an empty first lookup followed by a consumed
      sequence number is also what a confirmed payment looks like. */
  lemma RecheckIsNecessary(p: Pending, lag: nat)
    requires p.durable.message.kind == External
    ensures exists before: Chain, after: Chain ::
              && Valid(before, lag) && Valid(after, lag) && Extends(before, after)
              && AfterExecuted(Lookup(before, p.durable.message)) == Ask(Mempool)
              && AfterSeqno(p, 0, 0, after.indexed, true) == Ask(Recheck)
              && Executed(after, p.durable.message)
  {
    var m := p.durable.message;
    var n := m.seqno + 1;
    var other := (i: int) requires 0 <= i => Message(m.hash + 1, External, i, 0);
    var older := seq(m.seqno, i requires 0 <= i => Entry(other(i), 0, 0));
    var before := Chain(older, 0, m.seqno);
    var after := Chain(older + [Entry(m, 0, 0)], 0, n);
    assert Valid(before, lag) && Valid(after, lag) && Extends(before, after);
    assert after.log[m.seqno].message == m;
    assert Lookup(before, m).None?;
  }

  // ----- when one message's fate is another's -----

  /** A resolution of `j` says the same of `p`: they are one message, or the claim
      is only that a sequence number was consumed and `p` has no later one, or the
      claim says nothing at all. */
  predicate Transfers(j: Message, p: Message, r: Resolution) {
    || j == p
    || r.StillPending?
    || (r.SequenceNumberConsumed? && p.seqno <= j.seqno)
    || (r.Confirmed? && (r.transaction.hash != j.seqno || r.transaction.lt > U64_MAX))
  }

  /** Transactions of other messages, with `m` at its own sequence number. */
  function Others(n: nat, hash: nat, m: Message, lt: u64): (log: seq<Entry>)
    ensures |log| == n
    ensures forall i :: 0 <= i < n ==>
              log[i] == Entry(if i == m.seqno then m else Message(hash, External, i, 0), 0, lt)
  {
    seq(n, i requires 0 <= i < n => Entry(if i == m.seqno then m else Message(hash, External, i, 0), 0, lt))
  }

  lemma OthersValid(n: nat, hash: nat, m: Message, lt: u64, clock: nat, lag: nat)
    ensures Valid(Chain(Others(n, hash, m, lt), clock, n), lag)
  {
  }

  lemma TransferHolds(j: Message, p: Message, r: Resolution, c: Chain, lag: nat)
    requires Transfers(j, p, r) && Valid(c, lag) && Sound(c, j, r)
    ensures Sound(c, p, r)
  {
    if r.Confirmed? {
      assert ValidEntry(c.log[r.transaction.hash], r.transaction.hash, c.clock);
    }
  }

  /** A chain on which the resolution is true of `j` and false of `p`. */
  lemma TransferFails(j: Message, p: Message, r: Resolution, lag: nat) returns (c: Chain)
    requires !Transfers(j, p, r)
    ensures Valid(c, lag) && Sound(c, j, r) && !Sound(c, p, r)
  {
    var other := j.hash + 1;
    if r.Confirmed? {
      c := Chain(Others(j.seqno + 1, other, j, r.transaction.lt), 0, j.seqno + 1);
      OthersValid(j.seqno + 1, other, j, r.transaction.lt, 0, lag);
    } else if r.SequenceNumberConsumed? {
      c := Chain(Others(j.seqno + 1, other, j, 0), 0, j.seqno + 1);
      OthersValid(j.seqno + 1, other, j, 0, 0, lag);
    } else {
      var n := if j.seqno < p.seqno then p.seqno + 1 else j.seqno + 1;
      c := Chain(Others(n, other, p, 0), j.validUntil + 1, n);
      OthersValid(n, other, p, 0, j.validUntil + 1, lag);
      assert c.log[p.seqno].message == p;
      assert !Executed(c, j);
    }
  }

  /** Exactly when what is known of one message may be said of another: over every
      chain, the resolution of `j` is also true of `p` if and only if it transfers. */
  lemma TransferIff(j: Message, p: Message, r: Resolution, lag: nat)
    ensures (forall c :: Valid(c, lag) && Sound(c, j, r) ==> Sound(c, p, r)) <==> Transfers(j, p, r)
  {
    if Transfers(j, p, r) {
      forall c | Valid(c, lag) && Sound(c, j, r) ensures Sound(c, p, r) {
        TransferHolds(j, p, r, c, lag);
      }
    } else {
      var c := TransferFails(j, p, r, lag);
    }
  }
}
