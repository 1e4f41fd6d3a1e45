/** The wallet's key-change history: paging a log that grows while it is read
    (src/engine/encrypted_comment.rs, src/engine/key_history.rs), and walking it
    back from the current signing key (src/wallet/key_history.rs). */
module KeyHistory {
  import opened Basics

  const PAGE_SIZE: nat := 100
  const MAX_PAGES: nat := 10
  const CHANGE_WALLET_KEY := "change_wallet_key"

  type PublicKey = nat
  /** A 32-byte private seed, or a seed masked for publication. */
  datatype Seed = Seed(bytes: seq<bv8>)

  /** Masks a seed, or opens a masked one, byte by byte. */
  function Xor(a: Seed, m: Seed): Seed {
    if |a.bytes| == |m.bytes| then
      Seed(seq(|a.bytes|, i requires 0 <= i < |a.bytes| && i < |m.bytes| => a.bytes[i] ^ m.bytes[i]))
    else a
  }

  datatype Destination = Absent | Malformed | Address(account: string)

  /** An action's details; a key that is missing or not 32 hex bytes is `None`. */
  datatype Details =
    | Undecodable
    | Details(destination: Destination, newKey: Option<PublicKey>, encrypted: Option<Seed>)

  datatype Action = Action(kind: string, success: Option<bool>, details: Details)

  datatype KeyChange = KeyChange(newKey: PublicKey, encrypted: Seed)

  // ----- parsing one page -----

  datatype Parsed = Rejected | Ignored | Kept(change: KeyChange)

  function Parse(action: Action, wallet: string): Parsed {
    if action.kind != CHANGE_WALLET_KEY || action.success != Some(true) then Ignored
    else
      match action.details
      case Undecodable => Rejected
      case Details(Absent, _, _) => Ignored
      case Details(Malformed, _, _) => Rejected
      case Details(Address(account), newKey, encrypted) =>
        if account != wallet then Ignored
        else if newKey.None? || encrypted.None? then Rejected
        else Kept(KeyChange(newKey.value, encrypted.value))
  }

  /** A page is readable when no row is rejected; it keeps this wallet's rotations. */
  predicate Readable(rows: seq<Action>, wallet: string) {
    forall i :: 0 <= i < |rows| ==> !Parse(rows[i], wallet).Rejected?
  }

  function Changes(rows: seq<Action>, wallet: string): seq<KeyChange> {
    if rows == [] then []
    else
      var last := Parse(rows[|rows| - 1], wallet);
      var before := Changes(rows[..|rows| - 1], wallet);
      if last.Kept? then before + [last.change] else before
  }

  ghost predicate Keeps(rows: seq<Action>, wallet: string, c: KeyChange) {
    exists i :: 0 <= i < |rows| && Parse(rows[i], wallet) == Kept(c)
  }

  lemma {:induction false} ChangesKept(rows: seq<Action>, wallet: string, c: KeyChange)
    ensures c in Changes(rows, wallet) <==> Keeps(rows, wallet, c)
  {
    if rows != [] {
      var before := rows[..|rows| - 1];
      ChangesKept(before, wallet, c);
      assert forall i :: 0 <= i < |before| ==> before[i] == rows[i];
    }
  }

  /** `parse_key_change_page`. */
  method ParseKeyChangePage(rows: seq<Action>, wallet: string) returns (changes: Option<seq<KeyChange>>, rawCount: nat)
    ensures rawCount == |rows|
    ensures changes.None? <==> !Readable(rows, wallet)
    ensures changes.Some? ==> changes.value == Changes(rows, wallet)
  {
    rawCount := |rows|;
    var kept: seq<KeyChange> := [];
    for i := 0 to |rows|
      invariant kept == Changes(rows[..i], wallet)
      invariant forall k :: 0 <= k < i ==> !Parse(rows[k], wallet).Rejected?
    {
      assert rows[..i + 1][..i] == rows[..i];
      match Parse(rows[i], wallet) {
        case Ignored =>
        case Rejected => return None, rawCount;
        case Kept(change) => kept := kept + [change];
      }
    }
    assert rows[..|rows|] == rows;
    changes := Some(kept);
  }

  // ----- the provider -----

  /** The page a provider returns at an offset from the newest row of an
      oldest-first log: newest first, at most a page. */
  function RawCount(log: seq<Action>, offset: nat): nat {
    if |log| <= offset then 0 else if |log| - offset < PAGE_SIZE then |log| - offset else PAGE_SIZE
  }

  function PageAt(log: seq<Action>, offset: nat): (rows: seq<Action>)
    ensures |rows| == RawCount(log, offset)
  {
    seq(RawCount(log, offset), i requires 0 <= i < RawCount(log, offset) => log[|log| - 1 - offset - i])
  }

  /** The log only grows at its newest end from one read to the next. */
  ghost predicate Growing(logs: seq<seq<Action>>) {
    forall i, j :: 0 <= i < j < |logs| ==> logs[i] <= logs[j]
  }

  predicate Full(log: seq<Action>, offset: nat) {
    RawCount(log, offset) >= PAGE_SIZE
  }

  /** What the reads from an offset on collect. */
  function Collected(logs: seq<seq<Action>>, offset: nat, wallet: string): seq<KeyChange>
    decreases |logs|
  {
    if logs == [] then []
    else
      var page := PageAt(logs[0], offset);
      Changes(page, wallet)
      + if Full(logs[0], offset) then Collected(logs[1..], offset + |page|, wallet) else []
  }

  predicate AllReadable(logs: seq<seq<Action>>, offset: nat, wallet: string)
    decreases |logs|
  {
    logs == [] ||
    var page := PageAt(logs[0], offset);
    Readable(page, wallet) && (Full(logs[0], offset) ==> AllReadable(logs[1..], offset + |page|, wallet))
  }

  /** The paging loop of `key_change_history`: `logs[i]` is the log when page `i`
      is answered. */
  method KeyChangeHistory(logs: seq<seq<Action>>, wallet: string) returns (changes: Option<seq<KeyChange>>)
    requires |logs| == MAX_PAGES
    ensures changes.Some? <==> AllReadable(logs, 0, wallet)
    ensures changes.Some? ==> changes.value == Collected(logs, 0, wallet)
  {
    ReadOnCollects(logs, 0, 0, [], wallet);
    assert logs[0..] == logs;
    var collected: seq<KeyChange> := [];
    var offset := 0;
    for i := 0 to MAX_PAGES
      invariant ReadOn(logs, i, offset, collected, wallet) == ReadOn(logs, 0, 0, [], wallet)
    {
      var page, rawCount := ParseKeyChangePage(PageAt(logs[i], offset), wallet);
      if page.None? {
        return None;
      }
      collected := collected + page.value;
      if !Full(logs[i], offset) {
        return Some(collected);
      }
      offset := offset + rawCount;
    }
    changes := Some(collected);
  }

  /** The loop from read `i` on, with what it has so far. */
  function ReadOn(logs: seq<seq<Action>>, i: nat, offset: nat, sofar: seq<KeyChange>, wallet: string)
    : Option<seq<KeyChange>>
    requires i <= |logs|
    decreases |logs| - i
  {
    if i == |logs| then Some(sofar)
    else
      var page := PageAt(logs[i], offset);
      if !Readable(page, wallet) then None
      else if !Full(logs[i], offset) then Some(sofar + Changes(page, wallet))
      else ReadOn(logs, i + 1, offset + |page|, sofar + Changes(page, wallet), wallet)
  }

  lemma {:induction false} ReadOnCollects(
    logs: seq<seq<Action>>, i: nat, offset: nat, sofar: seq<KeyChange>, wallet: string)
    requires i <= |logs|
    ensures ReadOn(logs, i, offset, sofar, wallet)
         == if AllReadable(logs[i..], offset, wallet) then Some(sofar + Collected(logs[i..], offset, wallet)) else None
    decreases |logs| - i
  {
    assert sofar + [] == sofar;
    if i < |logs| {
      var page := PageAt(logs[i], offset);
      assert Changes(page, wallet) + [] == Changes(page, wallet);
      assert logs[i..][0] == logs[i] && logs[i..][1..] == logs[i + 1..];
      if Full(logs[i], offset) {
        ReadOnCollects(logs, i + 1, offset + |page|, sofar + Changes(page, wallet), wallet);
        Regroup(sofar, Changes(page, wallet), Collected(logs[i + 1..], offset + |page|, wallet));
      }
    }
  }

  lemma Regroup<T>(a: seq<T>, b: seq<T>, c: seq<T>)
    ensures a + (b + c) == (a + b) + c
  {
  }

  // ----- which rows were read -----

  predicate InPage(log: seq<Action>, offset: nat, p: nat) {
    |log| - offset - PAGE_SIZE <= p < |log| - offset
  }

  /** Log position `p` was read by one of the pages. */
  predicate Covered(logs: seq<seq<Action>>, offset: nat, p: nat)
    decreases |logs|
  {
    logs != [] &&
    (InPage(logs[0], offset, p) || (Full(logs[0], offset) && Covered(logs[1..], offset + PAGE_SIZE, p)))
  }

  /** The loop ended on a page that was not full. */
  predicate EndsShort(logs: seq<seq<Action>>, offset: nat)
    decreases |logs|
  {
    logs != [] && (Full(logs[0], offset) ==> EndsShort(logs[1..], offset + PAGE_SIZE))
  }

  lemma TailGrows(logs: seq<seq<Action>>)
    requires Growing(logs) && logs != []
    ensures Growing(logs[1..])
    ensures |logs| > 1 ==> logs[1..][0] == logs[1] && |logs[0]| <= |logs[1]|
  {
    assert |logs| > 1 ==> logs[0] <= logs[1];
  }

  /** The rows that were there when reading began are covered without a gap from
      the newest down to the oldest one read, even while the log grows. */
  lemma {:induction false} UnbrokenFromStart(logs: seq<seq<Action>>, offset: nat, p: nat, q: nat)
    requires Growing(logs) && logs != []
    requires p <= q < |logs[0]| - offset && Covered(logs, offset, p)
    ensures Covered(logs, offset, q)
    decreases |logs|
  {
    if !InPage(logs[0], offset, q) {
      TailGrows(logs);
      UnbrokenFromStart(logs[1..], offset + PAGE_SIZE, p, q);
    }
  }

  /** If the last page was short, nothing older than a row that was read is missing. */
  lemma {:induction false} ShortMeansComplete(logs: seq<seq<Action>>, offset: nat, r: nat, q: nat)
    requires Growing(logs) && EndsShort(logs, offset)
    requires q < |logs[0]| - offset || (q <= r && Covered(logs, offset, r))
    ensures Covered(logs, offset, q)
    decreases |logs|
  {
    if !InPage(logs[0], offset, q) {
      TailGrows(logs);
      ShortMeansComplete(logs[1..], offset + PAGE_SIZE, r, q);
    }
  }

  /** Exactly when every row present at the start is read: at some read the log
      still fitted in the pages read up to then. Ten full pages of a longer log
      therefore miss its oldest rows. */
  lemma CompleteIff(logs: seq<seq<Action>>)
    requires Growing(logs) && |logs| == MAX_PAGES && logs[0] != []
    ensures (forall p :: 0 <= p < |logs[0]| ==> Covered(logs, 0, p))
            <==> ReadsDownTo(logs, 0)
  {
    CoveredIff(logs, 0, 0);
    if Covered(logs, 0, 0) {
      forall p | 0 <= p < |logs[0]| ensures Covered(logs, 0, p) {
        UnbrokenFromStart(logs, 0, 0, p);
      }
    }
  }

  /** At read `i` the log held no more rows than `i + 1` pages beyond the offset. */
  predicate Fits(logs: seq<seq<Action>>, offset: nat, i: nat)
    requires i < |logs|
  {
    |logs[i]| <= offset + PAGE_SIZE * (i + 1)
  }

  /** At some read the log above row `o` fitted in the pages read up to then. */
  ghost predicate ReadsDownTo(logs: seq<seq<Action>>, o: nat) {
    exists i :: 0 <= i < |logs| && Fits(logs, o, i)
  }

  /** A row that was there when reading began is read exactly when at some read the
      log above it still fitted in the pages read up to then. */
  lemma {:induction false} CoveredIff(logs: seq<seq<Action>>, offset: nat, o: nat)
    requires Growing(logs) && logs != [] && |logs[0]| > offset + o
    ensures Covered(logs, offset, o) <==> ReadsDownTo(logs, offset + o)
    decreases |logs|
  {
    var above := offset + o;
    if Fits(logs, above, 0) {
    } else if |logs| > 1 {
      TailGrows(logs);
      CoveredIff(logs[1..], offset + PAGE_SIZE, o);
      var tail, below := logs[1..], offset + PAGE_SIZE + o;
      forall i | 0 <= i < |tail| ensures Fits(tail, below, i) == Fits(logs, above, i + 1) {
        assert tail[i] == logs[i + 1];
      }
      if i :| 0 <= i < |logs| && Fits(logs, above, i) {
        assert i > 0 && Fits(tail, below, i - 1);
      }
    } else {
      assert Covered(logs[1..], offset + PAGE_SIZE, o) == false;
    }
  }

  // ----- the collected history -----

  ghost predicate Seen(logs: seq<seq<Action>>, later: seq<Action>) {
    Growing(logs) && forall i :: 0 <= i < |logs| ==> logs[i] <= later
  }

  /** The rows of one page, by log position. */
  lemma PageRows(log: seq<Action>, offset: nat, p: nat)
    requires p < |log| && InPage(log, offset, p)
    ensures exists i :: 0 <= i < |PageAt(log, offset)| && PageAt(log, offset)[i] == log[p]
  {
    assert PageAt(log, offset)[|log| - 1 - offset - p] == log[p];
  }

  lemma {:induction false} CoveredIsCollected(
    logs: seq<seq<Action>>, offset: nat, later: seq<Action>, p: nat, wallet: string, c: KeyChange)
    requires Seen(logs, later) && Covered(logs, offset, p) && p < |later| && Parse(later[p], wallet) == Kept(c)
    ensures c in Collected(logs, offset, wallet)
    decreases |logs|
  {
    var page := PageAt(logs[0], offset);
    if InPage(logs[0], offset, p) {
      PageRows(logs[0], offset, p);
      assert logs[0][p] == later[p];
      ChangesKept(page, wallet, c);
      assert c in Changes(page, wallet);
    } else {
      TailGrows(logs);
      CoveredIsCollected(logs[1..], offset + PAGE_SIZE, later, p, wallet, c);
    }
  }

  lemma KeptPosition(log: seq<Action>, offset: nat, wallet: string, c: KeyChange) returns (p: nat)
    requires c in Changes(PageAt(log, offset), wallet)
    ensures InPage(log, offset, p) && p < |log| && Parse(log[p], wallet) == Kept(c)
  {
    var page := PageAt(log, offset);
    ChangesKept(page, wallet, c);
    var i :| 0 <= i < |page| && Parse(page[i], wallet) == Kept(c);
    p := |log| - 1 - offset - i;
  }

  lemma {:induction false} CollectedWasCovered(
    logs: seq<seq<Action>>, offset: nat, later: seq<Action>, wallet: string, c: KeyChange) returns (p: nat)
    requires Seen(logs, later) && c in Collected(logs, offset, wallet)
    ensures Covered(logs, offset, p) && p < |later| && Parse(later[p], wallet) == Kept(c)
    decreases |logs|
  {
    var page := PageAt(logs[0], offset);
    if c in Changes(page, wallet) {
      p := KeptPosition(logs[0], offset, wallet, c);
      assert logs[0] <= later;
    } else {
      CollectedBelow(logs, offset, wallet, c);
      TailGrows(logs);
      p := CollectedWasCovered(logs[1..], offset + PAGE_SIZE, later, wallet, c);
    }
  }

  lemma CollectedBelow(logs: seq<seq<Action>>, offset: nat, wallet: string, c: KeyChange)
    requires logs != [] && c in Collected(logs, offset, wallet) && c !in Changes(PageAt(logs[0], offset), wallet)
    ensures Full(logs[0], offset) && c in Collected(logs[1..], offset + PAGE_SIZE, wallet)
  {
  }

  predicate HistoryReaches(changes: seq<KeyChange>, key: PublicKey) {
    exists i :: 0 <= i < |changes| && changes[i].newKey == key
  }

  /** No two rotations of this wallet install one key. */
  ghost predicate KeysDistinct(log: seq<Action>, wallet: string) {
    forall i, j :: 0 <= i < j < |log| ==>
      var a, b := Parse(log[i], wallet), Parse(log[j], wallet);
      a.Kept? && b.Kept? ==> a.change.newKey != b.change.newKey
  }

  /** A cached history whose last page was short and that contains the rotation
      which installed the current key holds every older rotation, at any later
      time and however the log grew while it was read. */
  lemma CachedHistoryComplete(
    logs: seq<seq<Action>>, later: seq<Action>, wallet: string, p: nat, q: nat, c: KeyChange)
    requires Seen(logs, later) && EndsShort(logs, 0) && KeysDistinct(later, wallet)
    requires q <= p < |later| && Parse(later[p], wallet).Kept? && Parse(later[q], wallet) == Kept(c)
    requires HistoryReaches(Collected(logs, 0, wallet), Parse(later[p], wallet).change.newKey)
    ensures c in Collected(logs, 0, wallet)
  {
    var history := Collected(logs, 0, wallet);
    var i :| 0 <= i < |history| && history[i].newKey == Parse(later[p], wallet).change.newKey;
    var r := CollectedWasCovered(logs, 0, later, wallet, history[i]);
    ShortMeansComplete(logs, 0, p, q);
    CoveredIsCollected(logs, 0, later, q, wallet, c);
  }

  /** A rotation that was in the log when reading began is in the history exactly
      when at some read the log above it fitted in the pages read up to then; else
      it is missing even from a history that holds the current key's rotation. */
  lemma RotationHeldIff(logs: seq<seq<Action>>, later: seq<Action>, wallet: string, o: nat, c: KeyChange)
    requires Seen(logs, later) && logs != [] && KeysDistinct(later, wallet)
    requires o < |logs[0]| && Parse(later[o], wallet) == Kept(c)
    ensures c in Collected(logs, 0, wallet) <==> ReadsDownTo(logs, o)
  {
    CoveredIff(logs, 0, o);
    if Covered(logs, 0, o) {
      CoveredIsCollected(logs, 0, later, o, wallet, c);
    }
    if c in Collected(logs, 0, wallet) {
      var p := CollectedWasCovered(logs, 0, later, wallet, c);
      assert p == o;
    }
  }

  /** The exact condition for a rotation that was in the log when reading began:
      everything older was read if and only if at some read the log still fitted in
      the pages read up to then, a last page that is full included. */
  lemma OlderReadIff(logs: seq<seq<Action>>, p: nat)
    requires Growing(logs) && logs != [] && p < |logs[0]|
    ensures (forall q :: 0 <= q <= p ==> Covered(logs, 0, q)) <==> ReadsDownTo(logs, 0)
  {
    CoveredIff(logs, 0, 0);
    if Covered(logs, 0, 0) {
      forall q | 0 <= q <= p ensures Covered(logs, 0, q) {
        UnbrokenFromStart(logs, 0, 0, q);
      }
    }
  }

  /** Every rotation up to position `p` is in the history. */
  ghost predicate HoldsOlder(history: seq<KeyChange>, later: seq<Action>, p: nat, wallet: string) {
    forall q :: 0 <= q <= p && q < |later| && Parse(later[q], wallet).Kept? ==> Parse(later[q], wallet).change in history
  }

  /** Row `o` is the wallet's oldest rotation. */
  ghost predicate Oldest(later: seq<Action>, wallet: string, o: nat) {
    && o < |later| && Parse(later[o], wallet).Kept?
    && (forall q :: 0 <= q < o ==> !Parse(later[q], wallet).Kept?)
  }

  lemma {:induction false} OldestBelow(later: seq<Action>, wallet: string, p: nat) returns (o: nat)
    requires p < |later| && Parse(later[p], wallet).Kept?
    ensures Oldest(later, wallet, o) && o <= p
    decreases p
  {
    if q :| 0 <= q < p && Parse(later[q], wallet).Kept? {
      o := OldestBelow(later, wallet, q);
    } else {
      o := p;
    }
  }

  /** Exactly when a cached history holds every rotation up to a row that was there
      when reading began: the reads came down to the wallet's oldest rotation.
      Failed, foreign, and relayed actions below it need not be read. */
  lemma CachedHistoryExact(logs: seq<seq<Action>>, later: seq<Action>, wallet: string, p: nat)
    requires Seen(logs, later) && logs != [] && p < |logs[0]| && KeysDistinct(later, wallet)
    ensures HoldsOlder(Collected(logs, 0, wallet), later, p, wallet)
       <==> (forall o: nat :: Oldest(later, wallet, o) && o <= p ==> ReadsDownTo(logs, o))
  {
    var history := Collected(logs, 0, wallet);
    assert logs[0] <= later;
    if forall o: nat :: Oldest(later, wallet, o) && o <= p ==> ReadsDownTo(logs, o) {
      forall q | 0 <= q <= p && q < |later| && Parse(later[q], wallet).Kept?
        ensures Parse(later[q], wallet).change in history
      {
        var o := OldestBelow(later, wallet, q);
        ReadsFurther(logs, o, q);
        RotationHeldIff(logs, later, wallet, q, Parse(later[q], wallet).change);
      }
    }
    if HoldsOlder(history, later, p, wallet) {
      forall o: nat | Oldest(later, wallet, o) && o <= p ensures ReadsDownTo(logs, o) {
        RotationHeldIff(logs, later, wallet, o, Parse(later[o], wallet).change);
      }
    }
  }

  lemma ReadsFurther(logs: seq<seq<Action>>, o: nat, q: nat)
    requires ReadsDownTo(logs, o) && o <= q
    ensures ReadsDownTo(logs, q)
  {
    var i :| 0 <= i < |logs| && Fits(logs, o, i);
    assert Fits(logs, q, i);
  }

  /** The loop comes to read `i`: every page before it was full. */
  ghost predicate ComesTo(logs: seq<seq<Action>>, offset: nat, i: nat)
    requires i <= |logs|
  {
    forall k :: 0 <= k < i ==> |logs[k]| >= offset + PAGE_SIZE * (k + 1)
  }

  /** Read `i` is made and row `q` stands in its page. */
  ghost predicate ReadBy(logs: seq<seq<Action>>, offset: nat, i: nat, q: nat)
    requires i < |logs|
  {
    ComesTo(logs, offset, i) && InPage(logs[i], offset + PAGE_SIZE * i, q)
  }

  ghost predicate ReadSomewhere(logs: seq<seq<Action>>, offset: nat, q: nat) {
    exists i :: 0 <= i < |logs| && ReadBy(logs, offset, i, q)
  }

  /** For rows of any age, those that arrived during the reads included. */
  lemma {:induction false} CoveredByRead(logs: seq<seq<Action>>, offset: nat, q: nat)
    ensures Covered(logs, offset, q) <==> ReadSomewhere(logs, offset, q)
    decreases |logs|
  {
    if logs != [] {
      var tail, below := logs[1..], offset + PAGE_SIZE;
      CoveredByRead(tail, below, q);
      if InPage(logs[0], offset, q) {
        assert ReadBy(logs, offset, 0, q);
      } else {
        if i :| 0 <= i < |logs| && ReadBy(logs, offset, i, q) {
          ReadShifts(logs, offset, i - 1, q);
          assert ReadBy(tail, below, i - 1, q);
        }
        if Full(logs[0], offset) && ReadSomewhere(tail, below, q) {
          var i :| 0 <= i < |tail| && ReadBy(tail, below, i, q);
          ReadShifts(logs, offset, i, q);
          assert ReadBy(logs, offset, i + 1, q);
        }
      }
    }
  }

  lemma ReadShifts(logs: seq<seq<Action>>, offset: nat, i: nat, q: nat)
    requires i + 1 < |logs|
    ensures ReadBy(logs, offset, i + 1, q) <==> Full(logs[0], offset) && ReadBy(logs[1..], offset + PAGE_SIZE, i, q)
  {
    var tail := logs[1..];
    assert tail[i] == logs[i + 1];
    if ComesTo(logs, offset, i + 1) {
      forall k | 0 <= k < i ensures |tail[k]| >= offset + PAGE_SIZE + PAGE_SIZE * (k + 1) {
        assert tail[k] == logs[k + 1];
      }
      assert |logs[0]| >= offset + PAGE_SIZE * (0 + 1);
    }
    if Full(logs[0], offset) && ComesTo(tail, offset + PAGE_SIZE, i) {
      forall k | 0 <= k < i + 1 ensures |logs[k]| >= offset + PAGE_SIZE * (k + 1) {
        assert k > 0 ==> logs[k] == tail[k - 1];
      }
    }
  }

  /** Every rotation up to row `p` of the wallet was in a page that was read. */
  ghost predicate AllRead(logs: seq<seq<Action>>, later: seq<Action>, wallet: string, p: nat) {
    forall q :: 0 <= q <= p && q < |later| && Parse(later[q], wallet).Kept? ==> ReadSomewhere(logs, 0, q)
  }

  /** The same for every current rotation, one that arrived during the reads
      included, in terms of the lengths of the log at each read. */
  lemma CachedHistoryAnyRow(logs: seq<seq<Action>>, later: seq<Action>, wallet: string, p: nat)
    requires Seen(logs, later) && KeysDistinct(later, wallet)
    ensures HoldsOlder(Collected(logs, 0, wallet), later, p, wallet) <==> AllRead(logs, later, wallet, p)
  {
    var history := Collected(logs, 0, wallet);
    forall q | 0 <= q <= p && q < |later| && Parse(later[q], wallet).Kept?
      ensures Parse(later[q], wallet).change in history <==> ReadSomewhere(logs, 0, q)
    {
      var c := Parse(later[q], wallet).change;
      CoveredByRead(logs, 0, q);
      if Covered(logs, 0, q) {
        CoveredIsCollected(logs, 0, later, q, wallet, c);
      }
      if c in history {
        var r := CollectedWasCovered(logs, 0, later, wallet, c);
        assert r == q;
      }
    }
  }

  /** A log of one rotation after the other. */
  function RotationLog(n: nat, wallet: string): (log: seq<Action>)
    ensures |log| == n
    ensures forall i :: 0 <= i < n ==> Parse(log[i], wallet) == Kept(KeyChange(i, Seed([])))
  {
    seq(n, i requires 0 <= i < n =>
      Action(CHANGE_WALLET_KEY, Some(true), Details(Address(wallet), Some(i), Some(Seed([])))))
  }

  /** For every log of more than a thousand rotations that stands still while it is
      read: the history holds the current rotation and misses the oldest. */
  lemma LongHistoryMisses(n: nat, wallet: string)
    requires n > MAX_PAGES * PAGE_SIZE
    ensures var log := RotationLog(n, wallet);
            var history := Collected(seq(MAX_PAGES, _ => log), 0, wallet);
            && HistoryReaches(history, n - 1)
            && KeyChange(0, Seed([])) !in history
  {
    var log := RotationLog(n, wallet);
    var logs := seq(MAX_PAGES, _ => log);
    assert Seen(logs, log);
    assert KeysDistinct(log, wallet);
    assert forall i :: 0 <= i < MAX_PAGES ==> !Fits(logs, 0, i);
    RotationHeldIff(logs, log, wallet, 0, KeyChange(0, Seed([])));
    assert InPage(logs[0], 0, n - 1);
    CoveredIsCollected(logs, 0, log, n - 1, wallet, KeyChange(n - 1, Seed([])));
  }

  /** A log whose `failed` oldest rows are rotations that did not succeed. */
  function MixedLog(failed: nat, n: nat, wallet: string): (log: seq<Action>)
    ensures |log| == n
    ensures forall i :: 0 <= i < n && i < failed ==> Parse(log[i], wallet) == Ignored
    ensures forall i :: failed <= i < n ==> Parse(log[i], wallet) == Kept(KeyChange(i, Seed([])))
  {
    seq(n, i requires 0 <= i < n =>
      Action(CHANGE_WALLET_KEY, Some(i >= failed), Details(Address(wallet), Some(i), Some(Seed([])))))
  }

  /** A log of more than a thousand rows that fits at no read, and whose history is
      complete all the same: what was left unread are failed rotations. */
  lemma UnreadFailuresDoNoHarm(failed: nat, n: nat, wallet: string)
    requires failed < n <= failed + MAX_PAGES * PAGE_SIZE && n > MAX_PAGES * PAGE_SIZE
    ensures var log := MixedLog(failed, n, wallet);
            var logs := seq(MAX_PAGES, _ => log);
            && (forall i :: 0 <= i < |logs| ==> !Fits(logs, 0, i))
            && HoldsOlder(Collected(logs, 0, wallet), log, n - 1, wallet)
  {
    var log := MixedLog(failed, n, wallet);
    var logs := seq(MAX_PAGES, _ => log);
    assert Seen(logs, log) && KeysDistinct(log, wallet);
    assert Fits(logs, failed, MAX_PAGES - 1);
    forall o: nat | Oldest(log, wallet, o) ensures ReadsDownTo(logs, o) {
      assert Parse(log[failed], wallet).Kept? && Parse(log[o], wallet).Kept?;
      assert o == failed;
    }
    CachedHistoryExact(logs, log, wallet, n - 1);
  }

  // ----- recovering replaced keys -----

  /** The encrypted old key by the key its rotation installed; a later entry wins. */
  function InstalledBy(changes: seq<KeyChange>): (m: map<PublicKey, Seed>)
    ensures forall k :: k in m ==> KeyChange(k, m[k]) in changes
    ensures forall c :: c in changes ==> c.newKey in m
  {
    if changes == [] then map[]
    else InstalledBy(changes[..|changes| - 1])[changes[|changes| - 1].newKey := changes[|changes| - 1].encrypted]
  }

  /** What the walk recovers from a key, newest first, within a bound. */
  function Walk(m: map<PublicKey, Seed>, anchor: PublicKey, holder: Seed, bound: nat,
                pub: Seed -> PublicKey, mask: Seed -> Seed): seq<Seed>
    decreases bound
  {
    if bound == 0 || pub(holder) !in m then []
    else
      var older := Xor(m[pub(holder)], mask(holder));
      if pub(older) == anchor then [] else [older] + Walk(m, anchor, older, bound - 1, pub, mask)
  }

  method Indexed(changes: seq<KeyChange>) returns (installedBy: map<PublicKey, Seed>)
    ensures installedBy == InstalledBy(changes)
  {
    installedBy := map[];
    for i := 0 to |changes|
      invariant installedBy == InstalledBy(changes[..i])
    {
      assert changes[..i + 1][..i] == changes[..i];
      installedBy := installedBy[changes[i].newKey := changes[i].encrypted];
    }
    assert changes[..|changes|] == changes;
  }

  method RecoverSigningKeys(anchor: PublicKey, current: Seed, changes: seq<KeyChange>,
                            pub: Seed -> PublicKey, mask: Seed -> Seed) returns (recovered: seq<Seed>)
    ensures recovered == Walk(InstalledBy(changes), anchor, current, |InstalledBy(changes)|, pub, mask)
  {
    var installedBy := Indexed(changes);
    WalkOnRecovers(installedBy, anchor, [], current, pub, mask);
    recovered := [];
    var holder := current;
    while |recovered| < |installedBy|
      invariant WalkOn(installedBy, anchor, recovered, holder, pub, mask)
             == WalkOn(installedBy, anchor, [], current, pub, mask)
    {
      if pub(holder) !in installedBy {
        break;
      }
      var older := Xor(installedBy[pub(holder)], mask(holder));
      if pub(older) == anchor {
        break;
      }
      recovered, holder := recovered + [older], older;
    }
  }

  /** The loop from here on, with what it has recovered. */
  function WalkOn(m: map<PublicKey, Seed>, anchor: PublicKey, recovered: seq<Seed>, holder: Seed,
                  pub: Seed -> PublicKey, mask: Seed -> Seed): seq<Seed>
    decreases |m| - |recovered|
  {
    if |recovered| >= |m| || pub(holder) !in m then recovered
    else
      var older := Xor(m[pub(holder)], mask(holder));
      if pub(older) == anchor then recovered else WalkOn(m, anchor, recovered + [older], older, pub, mask)
  }

  lemma {:induction false} WalkOnRecovers(m: map<PublicKey, Seed>, anchor: PublicKey, recovered: seq<Seed>, holder: Seed,
                                          pub: Seed -> PublicKey, mask: Seed -> Seed)
    requires |recovered| <= |m|
    ensures WalkOn(m, anchor, recovered, holder, pub, mask)
         == recovered + Walk(m, anchor, holder, |m| - |recovered|, pub, mask)
    decreases |m| - |recovered|
  {
    if |recovered| < |m| && pub(holder) in m {
      var older := Xor(m[pub(holder)], mask(holder));
      if pub(older) != anchor {
        WalkOnRecovers(m, anchor, recovered + [older], older, pub, mask);
        Regroup(recovered, [older], Walk(m, anchor, older, |m| - |recovered| - 1, pub, mask));
      }
    }
  }

  lemma WalkUnfolds(m: map<PublicKey, Seed>, anchor: PublicKey, holder: Seed, bound: nat,
                    pub: Seed -> PublicKey, mask: Seed -> Seed)
    requires bound > 0 && pub(holder) in m
    ensures var older := Xor(m[pub(holder)], mask(holder));
            Walk(m, anchor, holder, bound, pub, mask)
            == if pub(older) == anchor then [] else [older] + Walk(m, anchor, older, bound - 1, pub, mask)
  {
  }

  /** The wallet's keys from the anchor on: all different, and the history holds
      each rotation up to key `n` and no other that installs one of these. */
  ghost predicate RotatedTo(chain: seq<Seed>, n: nat, changes: seq<KeyChange>,
                            pub: Seed -> PublicKey, mask: Seed -> Seed) {
    && n < |chain| && Different(chain, pub)
    && (forall i :: 1 <= i <= n ==> Rotation(chain, i, pub, mask) in changes)
    && (forall i, c :: 0 <= i <= n && c in changes && c.newKey == pub(chain[i])
          ==> i > 0 && c == Rotation(chain, i, pub, mask))
  }

  ghost predicate Different(chain: seq<Seed>, pub: Seed -> PublicKey) {
    forall i, j :: 0 <= i < j < |chain| ==> pub(chain[i]) != pub(chain[j])
  }

  /** The rotation from one key of the chain to the next. */
  function Rotation(chain: seq<Seed>, i: nat, pub: Seed -> PublicKey, mask: Seed -> Seed): KeyChange
    requires 1 <= i < |chain|
  {
    KeyChange(pub(chain[i]), Xor(chain[i - 1], mask(chain[i])))
  }

  lemma XorCancels(a: Seed, m: Seed)
    ensures Xor(Xor(a, m), m) == a
  {
    forall i | 0 <= i < |a.bytes| && |a.bytes| == |m.bytes| ensures (a.bytes[i] ^ m.bytes[i]) ^ m.bytes[i] == a.bytes[i] {
      ByteXorCancels(a.bytes[i], m.bytes[i]);
    }
    assert |a.bytes| == |m.bytes| ==> Xor(Xor(a, m), m).bytes == a.bytes;
  }

  lemma ByteXorCancels(a: bv8, m: bv8)
    ensures (a ^ m) ^ m == a
  {
  }

  function Reversed(s: seq<Seed>): (r: seq<Seed>)
    ensures |r| == |s| && forall i :: 0 <= i < |s| ==> r[i] == s[|s| - 1 - i]
  {
    if s == [] then [] else [s[|s| - 1]] + Reversed(s[..|s| - 1])
  }

  lemma {:induction false} WalkChain(chain: seq<Seed>, n: nat, changes: seq<KeyChange>, bound: nat,
                                     pub: Seed -> PublicKey, mask: Seed -> Seed)
    requires RotatedTo(chain, n, changes, pub, mask) && n <= bound
    ensures Walk(InstalledBy(changes), pub(chain[0]), chain[n], bound, pub, mask)
         == if n == 0 then [] else Reversed(chain[1..n])
    decreases n
  {
    var m, anchor := InstalledBy(changes), pub(chain[0]);
    if n == 0 {
      assert anchor !in m;
    } else {
      assert m[pub(chain[n])] == Rotation(chain, n, pub, mask).encrypted by {
        assert Rotation(chain, n, pub, mask) in changes;
      }
      XorCancels(chain[n - 1], mask(chain[n]));
      WalkUnfolds(m, anchor, chain[n], bound, pub, mask);
      if n > 1 {
        WalkChain(chain, n - 1, changes, bound - 1, pub, mask);
        ReversedLonger(chain, n);
      }
    }
  }

  lemma ReversedLonger(chain: seq<Seed>, n: nat)
    requires 1 < n <= |chain|
    ensures Reversed(chain[1..n]) == [chain[n - 1]] + Reversed(chain[1..n - 1])
  {
    assert chain[1..n][..n - 2] == chain[1..n - 1];
  }

  function KeysTo(chain: seq<Seed>, n: nat, pub: Seed -> PublicKey): set<PublicKey>
    requires n < |chain|
  {
    if n == 0 then {} else KeysTo(chain, n - 1, pub) + {pub(chain[n])}
  }

  lemma {:induction false} KeysToSize(chain: seq<Seed>, n: nat, pub: Seed -> PublicKey)
    requires Different(chain, pub) && n < |chain|
    ensures |KeysTo(chain, n, pub)| == n
    ensures forall k :: n < k < |chain| ==> pub(chain[k]) !in KeysTo(chain, n, pub)
  {
    if n > 0 {
      KeysToSize(chain, n - 1, pub);
    }
  }

  lemma {:induction false} KeysToInstalled(chain: seq<Seed>, n: nat, changes: seq<KeyChange>,
                                           pub: Seed -> PublicKey, mask: Seed -> Seed)
    requires n < |chain| && forall i :: 1 <= i <= n ==> Rotation(chain, i, pub, mask) in changes
    ensures KeysTo(chain, n, pub) <= InstalledBy(changes).Keys
  {
    if n > 0 {
      KeysToInstalled(chain, n - 1, changes, pub, mask);
      assert Rotation(chain, n, pub, mask) in changes;
    }
  }

  /** From a history that holds every rotation up to a phrase's own key, in any
      order, the walk recovers exactly the keys between the anchor and that key,
      newest first, for the newest phrase and for a stale one. */
  lemma RecoversChain(chain: seq<Seed>, n: nat, changes: seq<KeyChange>, pub: Seed -> PublicKey, mask: Seed -> Seed)
    requires RotatedTo(chain, n, changes, pub, mask)
    ensures var m := InstalledBy(changes);
            Walk(m, pub(chain[0]), chain[n], |m|, pub, mask) == if n == 0 then [] else Reversed(chain[1..n])
  {
    KeysToSize(chain, n, pub);
    KeysToInstalled(chain, n, changes, pub, mask);
    SubsetSize(KeysTo(chain, n, pub), InstalledBy(changes).Keys);
    WalkChain(chain, n, changes, |InstalledBy(changes)|, pub, mask);
  }

  lemma SubsetSize(a: set<PublicKey>, b: set<PublicKey>)
    requires a <= b
    ensures |a| <= |b|
  {
    assert b == a + (b - a);
  }

  // ----- from the log to the keys -----

  /** The wallet's rotations in the log are those of the chain, at these positions. */
  ghost predicate LogOfChain(later: seq<Action>, wallet: string, chain: seq<Seed>, at: seq<nat>,
                             pub: Seed -> PublicKey, mask: Seed -> Seed) {
    && |at| == |chain| && (forall i, j :: 1 <= i < j < |at| ==> at[i] < at[j])
    && (forall i :: 1 <= i < |chain| ==>
          at[i] < |later| && Parse(later[at[i]], wallet) == Kept(Rotation(chain, i, pub, mask)))
    && (forall x :: 0 <= x < |later| && Parse(later[x], wallet).Kept? ==> OnChain(at, x))
  }

  ghost predicate OnChain(at: seq<nat>, x: nat) {
    exists i :: 1 <= i < |at| && at[i] == x
  }

  lemma ChainKeysDistinct(later: seq<Action>, wallet: string, chain: seq<Seed>, at: seq<nat>,
                          pub: Seed -> PublicKey, mask: Seed -> Seed)
    requires Different(chain, pub) && LogOfChain(later, wallet, chain, at, pub, mask)
    ensures KeysDistinct(later, wallet)
  {
    forall x, y | 0 <= x < y < |later| && Parse(later[x], wallet).Kept? && Parse(later[y], wallet).Kept?
      ensures Parse(later[x], wallet).change.newKey != Parse(later[y], wallet).change.newKey
    {
      assert OnChain(at, x) && OnChain(at, y);
      var i :| 1 <= i < |at| && at[i] == x;
      var j :| 1 <= j < |at| && at[j] == y;
      assert pub(chain[i]) != pub(chain[j]);
    }
  }

  /** Everything in the history is a rotation of the chain. */
  lemma CollectedOnChain(logs: seq<seq<Action>>, later: seq<Action>, wallet: string, chain: seq<Seed>, at: seq<nat>,
                         pub: Seed -> PublicKey, mask: Seed -> Seed, c: KeyChange) returns (i: nat)
    requires Seen(logs, later) && LogOfChain(later, wallet, chain, at, pub, mask)
    requires c in Collected(logs, 0, wallet)
    ensures 1 <= i < |chain| && c == Rotation(chain, i, pub, mask)
  {
    var x := CollectedWasCovered(logs, 0, later, wallet, c);
    assert OnChain(at, x);
    i :| 1 <= i < |at| && at[i] == x;
  }

  /** From the history to the keys: one that holds every rotation up to a phrase's
      own key lets the walk recover exactly the keys before it, for the newest
      phrase and for a stale one. */
  lemma HistoryRecoversKeys(logs: seq<seq<Action>>, later: seq<Action>, wallet: string, chain: seq<Seed>, at: seq<nat>,
                            pub: Seed -> PublicKey, mask: Seed -> Seed, n: nat)
    requires Seen(logs, later) && 1 <= n < |chain| && Different(chain, pub)
    requires LogOfChain(later, wallet, chain, at, pub, mask)
    requires HoldsOlder(Collected(logs, 0, wallet), later, at[n], wallet)
    ensures var m := InstalledBy(Collected(logs, 0, wallet));
            Walk(m, pub(chain[0]), chain[n], |m|, pub, mask) == Reversed(chain[1..n])
  {
    KnownRotations(logs, later, wallet, chain, at, pub, mask, n);
    RecoversChain(chain, n, Collected(logs, 0, wallet), pub, mask);
  }

  lemma KnownRotations(logs: seq<seq<Action>>, later: seq<Action>, wallet: string, chain: seq<Seed>, at: seq<nat>,
                       pub: Seed -> PublicKey, mask: Seed -> Seed, n: nat)
    requires Seen(logs, later) && 1 <= n < |chain| && Different(chain, pub)
    requires LogOfChain(later, wallet, chain, at, pub, mask)
    requires HoldsOlder(Collected(logs, 0, wallet), later, at[n], wallet)
    ensures RotatedTo(chain, n, Collected(logs, 0, wallet), pub, mask)
  {
    var history := Collected(logs, 0, wallet);
    forall i | 1 <= i <= n ensures Rotation(chain, i, pub, mask) in history {
      HeldRotation(history, later, wallet, chain, at, pub, mask, n, i);
    }
    forall i, c | 0 <= i <= n && c in history && c.newKey == pub(chain[i])
      ensures i > 0 && c == Rotation(chain, i, pub, mask)
    {
      var k := CollectedOnChain(logs, later, wallet, chain, at, pub, mask, c);
      SameKey(chain, pub, i, k);
    }
  }

  lemma SameKey(chain: seq<Seed>, pub: Seed -> PublicKey, i: nat, k: nat)
    requires Different(chain, pub) && i < |chain| && k < |chain| && pub(chain[i]) == pub(chain[k])
    ensures i == k
  {
  }

  lemma HeldRotation(history: seq<KeyChange>, later: seq<Action>, wallet: string, chain: seq<Seed>, at: seq<nat>,
                     pub: Seed -> PublicKey, mask: Seed -> Seed, n: nat, i: nat)
    requires 1 <= i <= n < |chain| && LogOfChain(later, wallet, chain, at, pub, mask)
    requires HoldsOlder(history, later, at[n], wallet)
    ensures Rotation(chain, i, pub, mask) in history
  {
    assert Parse(later[at[i]], wallet) == Kept(Rotation(chain, i, pub, mask));
    assert at[i] <= at[n];
  }

  lemma OldestIsFirst(later: seq<Action>, wallet: string, chain: seq<Seed>, at: seq<nat>,
                      pub: Seed -> PublicKey, mask: Seed -> Seed, o: nat)
    requires LogOfChain(later, wallet, chain, at, pub, mask) && Oldest(later, wallet, o)
    ensures |chain| > 1 && o == at[1]
  {
    assert OnChain(at, o);
    var i :| 1 <= i < |at| && at[i] == o;
    assert Parse(later[at[1]], wallet).Kept?;
  }

  /** From provider pages to keys, for every phrase whose key the log installed:
      reads that ended on a short page and saw its rotation, or that came down to
      the first rotation, recover exactly the keys between anchor and phrase. */
  lemma PagesRecoverKeys(logs: seq<seq<Action>>, later: seq<Action>, wallet: string, chain: seq<Seed>, at: seq<nat>,
                         pub: Seed -> PublicKey, mask: Seed -> Seed, n: nat)
    requires Seen(logs, later) && logs != [] && 1 <= n < |chain| && Different(chain, pub)
    requires LogOfChain(later, wallet, chain, at, pub, mask)
    requires || (EndsShort(logs, 0) && HistoryReaches(Collected(logs, 0, wallet), pub(chain[n])))
             || (at[n] < |logs[0]| && ReadsDownTo(logs, at[1]))
    ensures var m := InstalledBy(Collected(logs, 0, wallet));
            Walk(m, pub(chain[0]), chain[n], |m|, pub, mask) == Reversed(chain[1..n])
  {
    var history := Collected(logs, 0, wallet);
    ChainKeysDistinct(later, wallet, chain, at, pub, mask);
    assert HoldsOlder(history, later, at[n], wallet) by {
      if at[n] < |logs[0]| && ReadsDownTo(logs, at[1]) {
        forall o: nat | Oldest(later, wallet, o) && o <= at[n] ensures ReadsDownTo(logs, o) {
          OldestIsFirst(later, wallet, chain, at, pub, mask, o);
        }
        CachedHistoryExact(logs, later, wallet, at[n]);
      } else {
        assert Parse(later[at[n]], wallet) == Kept(Rotation(chain, n, pub, mask));
        forall q | 0 <= q <= at[n] && q < |later| && Parse(later[q], wallet).Kept?
          ensures Parse(later[q], wallet).change in history
        {
          CachedHistoryComplete(logs, later, wallet, at[n], q, Parse(later[q], wallet).change);
        }
      }
    }
    HistoryRecoversKeys(logs, later, wallet, chain, at, pub, mask, n);
  }
}
