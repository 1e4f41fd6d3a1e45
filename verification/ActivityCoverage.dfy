/** Which of the account's transactions the loaded list covers, when the provider
    answers from a log that grows at its newest end. */
module ActivityCoverage {
  import opened Basics
  import opened ActivityModel

  const PAGE_SIZE: nat := 10

  /** A raw transaction; one without a transferred value has no row. */
  datatype Transaction = Transaction(logicalTime: nat, hash: string, rows: seq<Record>)

  /** Oldest first: logical times grow and a row belongs to one transaction. */
  ghost predicate ValidLog(log: seq<Transaction>) {
    && (forall i, j :: 0 <= i < j < |log| ==> log[i].logicalTime < log[j].logicalTime)
    && (forall i, j :: 0 <= i < |log| && 0 <= j < |log| ==> OwnRows(log, i, j))
  }

  ghost predicate OwnRows(log: seq<Transaction>, i: nat, j: nat)
    requires i < |log| && j < |log|
  {
    forall r, q :: r in log[i].rows && q in log[j].rows && r.id == q.id ==> i == j && r == q
  }

  /** The first position of a page that ends before `hi`. */
  function PageStart(hi: nat): nat {
    if hi < PAGE_SIZE then 0 else hi - PAGE_SIZE
  }

  ghost predicate HasRow(log: seq<Transaction>, lo: nat, hi: nat, r: Record)
    requires hi <= |log|
  {
    exists i :: lo <= i < hi && r in log[i].rows
  }

  /** The answer for positions `lo` to `hi`: its rows in display order, the oldest
      transaction as cursor, and more whenever the page is full. */
  ghost predicate Answers(log: seq<Transaction>, lo: nat, hi: nat, page: Page)
    requires lo <= hi <= |log|
  {
    && Sorted(page.items) && Ids(page.items)
    && (forall r :: r in page.items <==> HasRow(log, lo, hi, r))
    && page.cursor == (if lo == hi then None else Some(Cursor(log[lo].logicalTime, log[lo].hash)))
    && page.hasMore == (hi - lo >= PAGE_SIZE)
  }

  /** The list with the log behind it: the positions whose rows it holds, and the
      position its cursor names. */
  datatype World = World(log: seq<Transaction>, covered: set<nat>, deepest: nat, list: Activity)

  ghost predicate Listed(log: seq<Transaction>, covered: set<nat>, r: Record) {
    exists i :: i in covered && i < |log| && r in log[i].rows
  }

  ghost predicate CoverOk(w: World) {
    && ValidLog(w.log) && ActivityOk(w.list)
    && ListsExactly(w.log, w.covered, w.list.items)
    && CursorOk(w.log, w.covered, w.deepest, w.list.cursor)
  }

  ghost predicate ListsExactly(log: seq<Transaction>, covered: set<nat>, items: seq<Record>) {
    forall r :: r in items <==> Listed(log, covered, r)
  }

  ghost predicate CursorOk(log: seq<Transaction>, covered: set<nat>, deepest: nat, cursor: Option<Cursor>) {
    && (forall i :: i in covered ==> i < |log|)
    && (cursor.None? ==> covered == {})
    && (cursor.Some? ==>
          && deepest < |log| && deepest <= PageStart(|log|) && deepest in covered
          && cursor.value == Cursor(log[deepest].logicalTime, log[deepest].hash)
          && (forall i :: i in covered ==> deepest <= i))
  }

  function Positions(lo: nat, hi: nat): (r: set<nat>)
    ensures forall i :: i in r <==> lo <= i < hi
    decreases hi - lo
  {
    if lo >= hi then {} else {lo} + Positions(lo + 1, hi)
  }

  datatype Turn =
    | Grows(more: seq<Transaction>)
    | LoadsOlder(page: Page)
    | RefreshesHead(page: Page)

  /** The chain appends, a load answers from the cursor down (the cursor's own
      transaction included), a refresh answers with the newest page. */
  ghost predicate Next(w: World, turn: Turn, v: World) {
    match turn
    case Grows(more) => v == w.(log := w.log + more) && ValidLog(v.log)
    case LoadsOlder(page) =>
      && w.list.hasMore && w.list.cursor.Some? && w.deepest < |w.log|
      && Answers(w.log, PageStart(w.deepest + 1), w.deepest + 1, page)
      && Loads(w.list, page, v.list, |v.list.items| - |w.list.items|)
      && v.log == w.log && v.deepest == PageStart(w.deepest + 1)
      && v.covered == w.covered + Positions(v.deepest, w.deepest + (if v.deepest == w.deepest then 0 else 1))
    case RefreshesHead(page) =>
      && Answers(w.log, PageStart(|w.log|), |w.log|, page)
      && Refreshes(w.list, page, v.list)
      && v.log == w.log
      && v.covered == Positions(PageStart(|w.log|), |w.log|) + (if w.list.items == [] then {} else w.covered)
      && v.deepest == if w.list.items == [] then PageStart(|w.log|) else w.deepest
  }

  /** Rows with one identifier are one row. */
  lemma SameRow(log: seq<Transaction>, i: nat, j: nat, r: Record, q: Record)
    requires ValidLog(log) && i < |log| && j < |log| && r in log[i].rows && q in log[j].rows && r.id == q.id
    ensures i == j && r == q
  {
    assert OwnRows(log, i, j);
  }

  lemma KeptOrAnswered(w: World, lo: nat, hi: nat, page: Page, r: Record)
    requires CoverOk(w) && lo <= hi <= |w.log| && Answers(w.log, lo, hi, page)
    requires r in w.list.items && r.id in ById(page.items)
    ensures ById(page.items)[r.id] == r
  {
    var q := ById(page.items)[r.id];
    assert HasRow(w.log, lo, hi, q);
    var j :| lo <= j < hi && q in w.log[j].rows;
    var i :| i in w.covered && i < |w.log| && r in w.log[i].rows;
    SameRow(w.log, i, j, r, q);
  }

  /** A merge with an answer keeps every listed row and adds the answered ones. */
  lemma MergeIsUnion(w: World, lo: nat, hi: nat, page: Page, after: seq<Record>, r: Record)
    requires CoverOk(w) && lo <= hi <= |w.log| && Answers(w.log, lo, hi, page)
    requires Merged(w.list.items, page.items, after)
    ensures Sorted(after) && Ids(after)
    ensures r in after <==> r in w.list.items || r in page.items
  {
    MergeRefines(w.list.items, page.items, after);
    assert Lists(ById(page.items), page.items) by { OwnListing(page.items); }
    if r in w.list.items && r.id in ById(page.items) {
      KeptOrAnswered(w, lo, hi, page, r);
    }
  }

  lemma ListedUnion(log: seq<Transaction>, covered: set<nat>, lo: nat, hi: nat, r: Record)
    requires hi <= |log|
    ensures Listed(log, covered + Positions(lo, hi), r) <==> Listed(log, covered, r) || HasRow(log, lo, hi, r)
  {
    if Listed(log, covered, r) {
      var i :| i in covered && i < |log| && r in log[i].rows;
      assert i in covered + Positions(lo, hi);
    }
    if HasRow(log, lo, hi, r) {
      var i :| lo <= i < hi && r in log[i].rows;
      assert i in covered + Positions(lo, hi);
    }
  }

  lemma MergeCovers(w: World, lo: nat, hi: nat, page: Page, after: seq<Record>)
    requires CoverOk(w) && lo <= hi <= |w.log| && Answers(w.log, lo, hi, page)
    requires Merged(w.list.items, page.items, after)
    ensures Sorted(after) && Ids(after)
    ensures ListsExactly(w.log, w.covered + Positions(lo, hi), after)
  {
    assert Sorted(after) && Ids(after) by { MergeRefines(w.list.items, page.items, after); }
    forall r ensures r in after <==> Listed(w.log, w.covered + Positions(lo, hi), r) {
      MergeIsUnion(w, lo, hi, page, after, r);
      ListedUnion(w.log, w.covered, lo, hi, r);
    }
  }

  lemma GrowCovers(w: World, more: seq<Transaction>)
    requires CoverOk(w) && ValidLog(w.log + more)
    ensures CoverOk(w.(log := w.log + more))
  {
    var log := w.log + more;
    forall r ensures r in w.list.items <==> Listed(log, w.covered, r) {
      if Listed(w.log, w.covered, r) {
        var i :| i in w.covered && i < |w.log| && r in w.log[i].rows;
        assert log[i] == w.log[i];
      }
      if Listed(log, w.covered, r) {
        var i :| i in w.covered && i < |log| && r in log[i].rows;
        assert log[i] == w.log[i];
      }
    }
  }

  lemma LoadCovers(w: World, page: Page, v: World)
    requires CoverOk(w) && Next(w, LoadsOlder(page), v)
    ensures CoverOk(v)
  {
    var lo := PageStart(w.deepest + 1);
    assert CursorOk(v.log, v.covered, v.deepest, v.list.cursor);
    if lo < w.deepest {
      assert ActivityOk(v.list) && ListsExactly(v.log, v.covered, v.list.items) by {
        MergeCovers(w, lo, w.deepest + 1, page, v.list.items);
      }
    } else {
      assert v.covered == w.covered;
    }
  }

  lemma FirstPageCovers(w: World, page: Page, v: World)
    requires CoverOk(w) && w.list.items == [] && Next(w, RefreshesHead(page), v)
    ensures CoverOk(v)
  {
    var lo := PageStart(|w.log|);
    forall r ensures r in v.list.items <==> Listed(w.log, v.covered, r) {
      if r in page.items {
        var i :| lo <= i < |w.log| && r in w.log[i].rows;
        assert i in v.covered;
      }
      if Listed(w.log, v.covered, r) {
        var i :| i in v.covered && i < |w.log| && r in w.log[i].rows;
        assert HasRow(w.log, lo, |w.log|, r);
      }
    }
  }

  lemma NextCovers(w: World, turn: Turn, v: World)
    requires CoverOk(w) && Next(w, turn, v)
    ensures CoverOk(v)
  {
    match turn {
      case Grows(more) => GrowCovers(w, more);
      case LoadsOlder(page) => LoadCovers(w, page, v);
      case RefreshesHead(page) =>
        if w.list.items == [] {
          FirstPageCovers(w, page, v);
        } else {
          HeadCovers(w, page, v);
        }
    }
  }

  lemma HeadCovers(w: World, page: Page, v: World)
    requires CoverOk(w) && w.list.items != [] && Next(w, RefreshesHead(page), v)
    ensures CoverOk(v)
  {
    var lo := PageStart(|w.log|);
    assert v.covered == w.covered + Positions(lo, |w.log|);
    assert ActivityOk(v.list) && ListsExactly(v.log, v.covered, v.list.items) by {
      MergeCovers(w, lo, |w.log|, page, v.list.items);
    }
    assert CursorOk(v.log, v.covered, v.deepest, v.list.cursor) by {
      HeadCursor(w.log, w.covered, w.deepest, w.list.cursor, w.list.items);
    }
  }

  lemma HeadCursor(log: seq<Transaction>, covered: set<nat>, deepest: nat, cursor: Option<Cursor>, items: seq<Record>)
    requires CursorOk(log, covered, deepest, cursor) && items != [] && ListsExactly(log, covered, items)
    ensures CursorOk(log, covered + Positions(PageStart(|log|), |log|), deepest, cursor)
  {
    assert items[0] in items && Listed(log, covered, items[0]);
  }

  // ----- gaps -----

  /** Every transaction from the cursor to the newest known position is covered. */
  ghost predicate Unbroken(w: World, hi: nat) {
    w.covered == Positions(w.deepest, hi)
  }

  /** Loading older pages extends the covered run downwards and leaves no gap. */
  lemma OlderPagesLeaveNoGap(w: World, page: Page, v: World, hi: nat)
    requires CoverOk(w) && Unbroken(w, hi) && w.deepest < hi && Next(w, LoadsOlder(page), v)
    ensures CoverOk(v) && Unbroken(v, hi) && v.deepest <= w.deepest
    ensures v.deepest < w.deepest || !v.list.hasMore
  {
    LoadCovers(w, page, v);
  }

  /** Every row from position `lo` on is in the list. */
  ghost predicate Complete(w: World, lo: nat) {
    forall i, r :: lo <= i < |w.log| && r in w.log[i].rows ==> r in w.list.items
  }

  /** A refresh of a loaded list leaves it complete down to its cursor exactly when
      every transaction with a row between the cursor and the refreshed page was
      covered before. Skipped transactions without a value do no harm, now or at
      any later refresh. */
  lemma RefreshCompleteIff(w: World, page: Page, v: World)
    requires CoverOk(w) && w.list.items != [] && Next(w, RefreshesHead(page), v)
    ensures Complete(v, w.deepest)
       <==> (forall i :: w.deepest <= i < PageStart(|w.log|) && w.log[i].rows != [] ==> i in w.covered)
  {
    var _ := HeadMoves(w, page, v);
    RowsAreListed(v);
    CompleteFrom(v, w.deepest, w.covered, PageStart(|w.log|));
  }

  lemma CompleteFrom(v: World, lo: nat, before: set<nat>, head: nat)
    requires RowByRow(v) && head <= |v.log| && v.covered == before + Positions(head, |v.log|)
    ensures Complete(v, lo) <==> (forall i :: lo <= i < head && v.log[i].rows != [] ==> i in before)
  {
    if Complete(v, lo) {
      forall i | lo <= i < head && v.log[i].rows != [] ensures i in before {
        var r := v.log[i].rows[0];
        assert r in v.log[i].rows && r in v.list.items;
      }
    }
  }

  /** A row is listed exactly when its own transaction is covered. */
  lemma ListedHere(w: World, i: nat, r: Record)
    requires CoverOk(w) && i < |w.log| && r in w.log[i].rows
    ensures r in w.list.items <==> i in w.covered
  {
    if Listed(w.log, w.covered, r) {
      var j :| j in w.covered && j < |w.log| && r in w.log[j].rows;
      SameRow(w.log, i, j, r, r);
    }
  }

  ghost predicate RowByRow(w: World) {
    forall i, r :: 0 <= i < |w.log| && r in w.log[i].rows ==> (r in w.list.items <==> i in w.covered)
  }

  lemma RowsAreListed(w: World)
    requires CoverOk(w)
    ensures RowByRow(w)
  {
    forall i, r | 0 <= i < |w.log| && r in w.log[i].rows ensures r in w.list.items <==> i in w.covered {
      ListedHere(w, i, r);
    }
  }

  /** What a refresh of a loaded list moves. */
  lemma HeadMoves(w: World, page: Page, v: World) returns (head: nat)
    requires CoverOk(w) && w.list.items != [] && Next(w, RefreshesHead(page), v)
    ensures CoverOk(v) && v.list.items != [] && v.list.cursor.Some?
    ensures head == PageStart(|w.log|) && v.log == w.log && v.deepest == w.deepest && w.deepest in w.covered
    ensures v.covered == w.covered + Positions(head, |w.log|)
  {
    head := PageStart(|w.log|);
    HeadCovers(w, page, v);
    HeadKeepsList(w, page, v);
    LoadedHasCursor(w);
  }

  ghost predicate Skipped(w: World, i: nat) {
    w.deepest < i < PageStart(|w.log|) && i !in w.covered && w.list.items != [] && w.list.cursor.Some?
  }

  lemma SkippedStays(w: World, turn: Turn, v: World, i: nat)
    requires CoverOk(w) && Skipped(w, i) && Next(w, turn, v)
    ensures Skipped(v, i) && v.log[i] == w.log[i]
  {
    var first := w.list.items[0];
    assert first in w.list.items;
    NextCovers(w, turn, v);
    if turn.LoadsOlder? {
      assert Listed(w.log, w.covered, first) && Listed(v.log, v.covered, first);
    } else if turn.RefreshesHead? {
      assert Listed(w.log, w.covered, first);
      assert Listed(v.log, v.covered, first);
    }
  }

  ghost predicate History(worlds: seq<World>, turns: seq<Turn>) {
    && |worlds| == |turns| + 1
    && (forall k :: 0 <= k < |turns| ==> Next(worlds[k], turns[k], worlds[k + 1]))
  }

  lemma HistoryTail(worlds: seq<World>, turns: seq<Turn>)
    requires History(worlds, turns) && turns != []
    ensures History(worlds[1..], turns[1..])
  {
    forall k | 0 <= k < |turns[1..]| ensures Next(worlds[1..][k], turns[1..][k], worlds[1..][k + 1]) {
      assert Next(worlds[k + 1], turns[k + 1], worlds[k + 2]);
    }
  }

  /** A skipped transaction is lost for good: however the log grows and however
      often the list is refreshed or extended afterwards, its rows never appear. */
  lemma {:induction false} SkippedForever(worlds: seq<World>, turns: seq<Turn>, i: nat, r: Record)
    requires History(worlds, turns) && CoverOk(worlds[0]) && Skipped(worlds[0], i)
    requires r in worlds[0].log[i].rows
    ensures r !in worlds[|turns|].list.items
    decreases |turns|
  {
    if turns == [] {
      ListedHere(worlds[0], i, r);
    } else {
      assert Next(worlds[0], turns[0], worlds[1]);
      assert CoverOk(worlds[1]) by { NextCovers(worlds[0], turns[0], worlds[1]); }
      SkippedStays(worlds[0], turns[0], worlds[1], i);
      HistoryTail(worlds, turns);
      SkippedForever(worlds[1..], turns[1..], i, r);
    }
  }

  // ----- runs from a new client -----

  const START: World := World([], {}, 0, Activity([], None, false))

  /** In every run of a new client the list holds exactly the rows of the
      transactions it covers. */
  lemma {:induction false} HistoryCovers(worlds: seq<World>, turns: seq<Turn>)
    requires History(worlds, turns) && CoverOk(worlds[0])
    ensures CoverOk(worlds[|turns|])
    decreases |turns|
  {
    if turns != [] {
      assert Next(worlds[0], turns[0], worlds[1]);
      assert CoverOk(worlds[1]) by { NextCovers(worlds[0], turns[0], worlds[1]); }
      HistoryTail(worlds, turns);
      HistoryCovers(worlds[1..], turns[1..]);
    }
  }

  lemma NewClientCovers(worlds: seq<World>, turns: seq<Turn>)
    requires History(worlds, turns) && worlds[0] == START
    ensures CoverOk(worlds[|turns|])
  {
    assert CoverOk(START);
    HistoryCovers(worlds, turns);
  }

  /** A refresh that leaves the list incomplete skips a transaction with a row. */
  lemma IncompleteSkips(w: World, page: Page, v: World) returns (i: nat)
    requires CoverOk(w) && w.list.items != [] && Next(w, RefreshesHead(page), v) && !Complete(v, w.deepest)
    ensures Skipped(v, i) && v.log[i].rows != []
  {
    RefreshCompleteIff(w, page, v);
    i :| w.deepest <= i < PageStart(|w.log|) && w.log[i].rows != [] && i !in w.covered;
    var head := HeadMoves(w, page, v);
    NowSkipped(w, v, i);
  }

  lemma NowSkipped(w: World, v: World, i: nat)
    requires v.list.items != [] && v.list.cursor.Some? && v.log == w.log && v.deepest == w.deepest
    requires w.deepest in w.covered && v.covered == w.covered + Positions(PageStart(|w.log|), |w.log|)
    requires w.deepest <= i < PageStart(|w.log|) && i !in w.covered
    ensures Skipped(v, i)
  {
  }

  lemma LoadedHasCursor(w: World)
    requires CoverOk(w) && w.list.items != []
    ensures w.list.cursor.Some? && w.deepest in w.covered
  {
    assert w.list.items[0] in w.list.items && Listed(w.log, w.covered, w.list.items[0]);
  }

  lemma HeadKeepsList(w: World, page: Page, v: World)
    requires CoverOk(w) && w.list.items != [] && Next(w, RefreshesHead(page), v)
    ensures v.list.items != [] && v.list.cursor.Some? && v.deepest == w.deepest
  {
    var first := w.list.items[0];
    assert first in w.list.items && Listed(w.log, w.covered, first);
    var j :| j in w.covered && j < |w.log| && first in w.log[j].rows;
    assert CoverOk(v) by { HeadCovers(w, page, v); }
    assert j in v.covered && Listed(v.log, v.covered, first);
  }

  // ----- which runs leave a complete list -----

  /** The length of the log at the last refresh, with `head` that of an earlier one. */
  function Head(worlds: seq<World>, turns: seq<Turn>, head: nat): nat
    requires |worlds| == |turns| + 1
    decreases |turns|
  {
    if turns == [] then head
    else Head(worlds[1..], turns[1..], if turns[0].RefreshesHead? then |worlds[0].log| else head)
  }

  /** A refresh of a loaded list that steps over a transaction with a row: one newer
      than the last refresh and older than the refreshed page. */
  ghost predicate StepsOver(w: World, head: nat, turn: Turn) {
    && turn.RefreshesHead? && w.list.items != []
    && exists i :: head <= i < PageStart(|w.log|) && w.log[i].rows != []
  }

  /** No refresh of the run steps over a transaction with a row. */
  ghost predicate Clean(worlds: seq<World>, turns: seq<Turn>, head: nat)
    requires |worlds| == |turns| + 1
    decreases |turns|
  {
    turns == [] ||
    (&& !StepsOver(worlds[0], head, turns[0])
     && Clean(worlds[1..], turns[1..], if turns[0].RefreshesHead? then |worlds[0].log| else head))
  }

  /** Every row between the cursor and the last refresh is in the list. */
  ghost predicate CompleteTo(w: World, head: nat) {
    forall i, r :: w.deepest <= i < head && i < |w.log| && r in w.log[i].rows ==> r in w.list.items
  }

  ghost predicate Missing(w: World, head: nat, i: nat) {
    i < head && Skipped(w, i) && w.log[i].rows != []
  }

  /** The list against the newest position it has been refreshed to. */
  ghost predicate Tracked(w: World, head: nat, clean: bool) {
    && head <= |w.log| && (w.list.cursor.None? ==> head == 0)
    && (forall i :: i in w.covered ==> i < head)
    && (clean ==> forall i :: w.deepest <= i < head && w.log[i].rows != [] ==> i in w.covered)
    && (!clean ==> exists i: nat :: Missing(w, head, i))
  }

  lemma GrowTracks(w: World, head: nat, clean: bool, more: seq<Transaction>)
    requires Tracked(w, head, clean)
    ensures Tracked(w.(log := w.log + more), head, clean)
  {
    var v := w.(log := w.log + more);
    if clean {
      forall i | v.deepest <= i < head && v.log[i].rows != [] ensures i in v.covered {
        assert v.log[i] == w.log[i];
      }
    } else {
      var i: nat :| Missing(w, head, i);
      assert Missing(v, head, i);
    }
  }

  /** What loading an older page moves. */
  lemma LoadMoves(w: World, page: Page, v: World) returns (top: nat)
    requires CoverOk(w) && Next(w, LoadsOlder(page), v)
    ensures CoverOk(v) && v.list.cursor.Some? && (w.list.items != [] ==> v.list.items != [])
    ensures v.log == w.log && v.deepest <= w.deepest && w.deepest in w.covered && w.deepest <= top <= w.deepest + 1
    ensures v.covered == w.covered + Positions(v.deepest, top)
  {
    top := w.deepest + (if v.deepest == w.deepest then 0 else 1);
    LoadCovers(w, page, v);
    if w.list.items != [] {
      var first := w.list.items[0];
      assert first in w.list.items && Listed(w.log, w.covered, first);
      assert Listed(v.log, v.covered, first);
    }
  }

  lemma LoadTracks(w: World, head: nat, clean: bool, v: World, top: nat)
    requires Tracked(w, head, clean) && w.list.cursor.Some? && v.list.cursor.Some?
    requires w.list.items != [] ==> v.list.items != []
    requires v.log == w.log && v.deepest <= w.deepest && w.deepest in w.covered && w.deepest <= top <= w.deepest + 1
    requires v.covered == w.covered + Positions(v.deepest, top)
    ensures Tracked(v, head, clean)
  {
    if !clean {
      var i: nat :| Missing(w, head, i);
      assert Missing(v, head, i);
    }
  }

  lemma FirstPageTracks(w: World, head: nat, clean: bool, page: Page, v: World)
    requires Tracked(w, head, clean) && w.list.items == [] && Next(w, RefreshesHead(page), v)
    ensures clean && Tracked(v, |w.log|, clean)
  {
  }

  lemma HeadTracks(w: World, head: nat, clean: bool, turn: Turn, v: World)
    requires Tracked(w, head, clean) && w.list.items != [] && turn.RefreshesHead?
    requires v.list.items != [] && v.list.cursor.Some? && v.log == w.log && v.deepest == w.deepest
    requires w.deepest in w.covered && v.covered == w.covered + Positions(PageStart(|w.log|), |w.log|)
    ensures Tracked(v, |w.log|, clean && !StepsOver(w, head, turn))
  {
    if !clean {
      var i: nat :| Missing(w, head, i);
      assert Missing(v, |w.log|, i);
    } else if StepsOver(w, head, turn) {
      var i: nat :| head <= i < PageStart(|w.log|) && w.log[i].rows != [];
      assert Missing(v, |w.log|, i);
    }
  }

  lemma TurnTracks(w: World, head: nat, clean: bool, turn: Turn, v: World)
    requires CoverOk(w) && Tracked(w, head, clean) && Next(w, turn, v)
    ensures CoverOk(v)
    ensures Tracked(v, if turn.RefreshesHead? then |w.log| else head, clean && !StepsOver(w, head, turn))
  {
    NextCovers(w, turn, v);
    match turn
    case Grows(more) => GrowTracks(w, head, clean, more);
    case LoadsOlder(page) =>
      var top := LoadMoves(w, page, v);
      LoadTracks(w, head, clean, v, top);
    case RefreshesHead(page) =>
      if w.list.items == [] {
        FirstPageTracks(w, head, clean, page, v);
      } else {
        var _ := HeadMoves(w, page, v);
        HeadTracks(w, head, clean, turn, v);
      }
  }

  lemma TrackedComplete(w: World, head: nat, clean: bool)
    requires RowByRow(w) && Tracked(w, head, clean)
    ensures CompleteTo(w, head) <==> clean
  {
    if !clean {
      var i: nat :| Missing(w, head, i);
      var r := w.log[i].rows[0];
      assert r in w.log[i].rows && r !in w.list.items;
    }
  }

  lemma {:induction false} RunTracks(worlds: seq<World>, turns: seq<Turn>, head: nat, clean: bool)
    requires History(worlds, turns) && CoverOk(worlds[0]) && Tracked(worlds[0], head, clean)
    ensures CompleteTo(worlds[|turns|], Head(worlds, turns, head)) <==> clean && Clean(worlds, turns, head)
    decreases |turns|
  {
    if turns == [] {
      RowsAreListed(worlds[0]);
      TrackedComplete(worlds[0], head, clean);
    } else {
      var w, turn, v := worlds[0], turns[0], worlds[1];
      assert Next(w, turn, v);
      HistoryTail(worlds, turns);
      TurnTracks(w, head, clean, turn, v);
      RunTracks(worlds[1..], turns[1..], if turn.RefreshesHead? then |w.log| else head, clean && !StepsOver(w, head, turn));
    }
  }

  /** In every run of a new client, however the chain grows and in whatever order it
      loads and refreshes: the list is complete from its cursor to the last refresh
      exactly when no refresh of a loaded list stepped over a transaction with a
      row. */
  lemma RunCompleteIff(worlds: seq<World>, turns: seq<Turn>)
    requires History(worlds, turns) && worlds[0] == START
    ensures CompleteTo(worlds[|turns|], Head(worlds, turns, 0)) <==> Clean(worlds, turns, 0)
  {
    assert CoverOk(START) && Tracked(START, 0, true);
    RunTracks(worlds, turns, 0, true);
  }

  // ----- a run that skips -----

  /** The only row of transaction `i`. */
  function Row(i: nat): Record {
    Record(seq(i, _ => 'a'), i, 0, "")
  }

  lemma RowsDiffer(i: nat, j: nat)
    ensures Row(i).id == Row(j).id <==> i == j
  {
    assert |Row(i).id| == i && |Row(j).id| == j;
  }

  function Log(n: nat): (log: seq<Transaction>)
    ensures |log| == n && forall i :: 0 <= i < n ==> log[i] == Transaction(i, "", [Row(i)])
  {
    seq(n, i requires 0 <= i < n => Transaction(i, "", [Row(i)]))
  }

  lemma LogValid(n: nat)
    ensures ValidLog(Log(n))
  {
    forall i, j | 0 <= i < n && 0 <= j < n ensures OwnRows(Log(n), i, j) {
      RowsDiffer(i, j);
    }
  }

  /** Rows from position `hi - 1` down to `lo`, newest first. */
  function RowsDown(lo: nat, hi: nat): (r: seq<Record>)
    requires lo <= hi
    ensures |r| == hi - lo && forall k :: 0 <= k < hi - lo ==> r[k] == Row(hi - 1 - k)
  {
    seq(hi - lo, k requires 0 <= k < hi - lo => Row(hi - 1 - k))
  }

  lemma RowsDownHas(lo: nat, hi: nat, i: nat)
    requires lo <= i < hi
    ensures Row(i) in RowsDown(lo, hi)
  {
    assert RowsDown(lo, hi)[hi - 1 - i] == Row(i);
  }

  function PageOf(lo: nat, hi: nat): Page
    requires lo < hi
  {
    Page(RowsDown(lo, hi), Some(Cursor(lo, "")), hi - lo >= PAGE_SIZE)
  }

  lemma PageAnswers(n: nat, lo: nat, hi: nat)
    requires lo < hi <= n
    ensures Answers(Log(n), lo, hi, PageOf(lo, hi))
  {
    var items := RowsDown(lo, hi);
    forall i, j | 0 <= i < j < |items| ensures items[i].id != items[j].id {
      RowsDiffer(hi - 1 - i, hi - 1 - j);
    }
    forall r ensures r in items <==> HasRow(Log(n), lo, hi, r) {
      if HasRow(Log(n), lo, hi, r) {
        var i :| lo <= i < hi && r in Log(n)[i].rows;
        RowsDownHas(lo, hi, i);
      }
      if r in items {
        var k :| 0 <= k < |items| && items[k] == r;
        assert r in Log(n)[hi - 1 - k].rows;
      }
    }
  }

  /** The list after the second refresh: the new page, then the old row. */
  function MergedRows(n: nat): seq<Record>
    requires n >= PAGE_SIZE
  {
    RowsDown(n + 1 - PAGE_SIZE, n + 1) + [Row(0)]
  }

  lemma MergedRowsOrdered(n: nat)
    requires n > PAGE_SIZE
    ensures Sorted(MergedRows(n)) && Ids(MergedRows(n))
  {
    var after := MergedRows(n);
    forall i, j | 0 <= i < j < |after| ensures Before(after[i], after[j]) && after[i].id != after[j].id {
      var p, q := n - i, if j == PAGE_SIZE then 0 else n - j;
      assert after[i] == Row(p) && after[j] == Row(q);
      RowsDiffer(p, q);
    }
  }

  /** A sorted list that holds one row for each identifier of a map lists it. */
  lemma ListsById(m: map<string, Record>, after: seq<Record>)
    requires Sorted(after) && Ids(after)
    requires forall id :: id in m ==> m[id].id == id && m[id] in after
    requires forall r :: r in after ==> r.id in m
    ensures Lists(m, after)
  {
    forall r | r in after ensures m[r.id] == r {
      var i :| 0 <= i < |after| && after[i] == r;
      var j :| 0 <= j < |after| && after[j] == m[r.id];
    }
  }

  lemma RowsAreMerged(n: nat)
    requires n > PAGE_SIZE
    ensures Merged([Row(0)], RowsDown(n + 1 - PAGE_SIZE, n + 1), MergedRows(n))
  {
    var page, after := RowsDown(n + 1 - PAGE_SIZE, n + 1), MergedRows(n);
    var m := ById([Row(0)]) + ById(page);
    assert forall r :: r in after <==> r in page || r == Row(0);
    forall id | id in m ensures m[id].id == id && m[id] in after {
      FromEither(page, id);
    }
    forall r | r in after ensures r.id in m {
      assert r in page || r in [Row(0)];
    }
    assert Sorted(after) && Ids(after) by { MergedRowsOrdered(n); }
    ListsById(m, after);
  }

  lemma FromEither(page: seq<Record>, id: string)
    ensures var m := ById([Row(0)]) + ById(page);
            id in m ==> m[id].id == id && (m[id] in page || m[id] == Row(0))
  {
  }

  /** Turn by turn: one transaction is loaded, `n` more arrive, and the list is
      refreshed. */
  lemma KnownRun() returns (worlds: seq<World>, turns: seq<Turn>)
    ensures History(worlds, turns) && |turns| == 1 && worlds[0] == START && worlds[1] == ONE_KNOWN
  {
    FirstLoad();
    worlds, turns := OneTurn([START], [], START, Grows(Log(1)), ONE_KNOWN);
  }

  lemma LoadedRun() returns (worlds: seq<World>, turns: seq<Turn>)
    ensures History(worlds, turns) && |turns| == 2 && worlds[0] == START && worlds[2] == ONE_LOADED
  {
    worlds, turns := KnownRun();
    FirstLoad();
    worlds, turns := OneTurn(worlds, turns, ONE_KNOWN, RefreshesHead(PageOf(0, 1)), ONE_LOADED);
  }

  lemma GrownRun(n: nat) returns (worlds: seq<World>, turns: seq<Turn>)
    ensures History(worlds, turns) && |turns| == 3 && worlds[0] == START && worlds[3] == ONE_LOADED.(log := Log(n + 1))
  {
    worlds, turns := LoadedRun();
    Burst(n);
    worlds, turns := OneTurn(worlds, turns, ONE_LOADED, Grows(Log(n + 1)[1..]), ONE_LOADED.(log := Log(n + 1)));
  }

  lemma RefreshedRun(n: nat) returns (worlds: seq<World>, turns: seq<Turn>)
    requires n > PAGE_SIZE
    ensures History(worlds, turns) && |turns| == 4 && worlds[0] == START && worlds[4] == Refreshed(n)
  {
    worlds, turns := GrownRun(n);
    SecondRefresh(n);
    worlds, turns := OneTurn(worlds, turns, ONE_LOADED.(log := Log(n + 1)),
                             RefreshesHead(PageOf(n + 1 - PAGE_SIZE, n + 1)), Refreshed(n));
  }

  /** For every burst of more than a page there is a run in which the transactions
      just after the loaded one are skipped. */
  lemma BurstSkips(n: nat) returns (worlds: seq<World>, turns: seq<Turn>)
    requires n > PAGE_SIZE
    ensures History(worlds, turns) && |turns| == 4 && worlds[0] == START && worlds[4].log == Log(n + 1)
    ensures forall i :: 1 <= i <= n - PAGE_SIZE ==> Skipped(worlds[4], i)
  {
    worlds, turns := RefreshedRun(n);
    forall i | 1 <= i <= n - PAGE_SIZE ensures Skipped(worlds[4], i) {
      BurstSkipsAt(n, i);
    }
  }

  lemma OneTurn(worlds: seq<World>, turns: seq<Turn>, w: World, t: Turn, v: World)
    returns (longer: seq<World>, more: seq<Turn>)
    requires History(worlds, turns) && worlds[|turns|] == w && Next(w, t, v)
    ensures longer == worlds + [v] && more == turns + [t] && History(longer, more)
  {
    longer, more := worlds + [v], turns + [t];
    forall k | 0 <= k < |more| ensures Next(longer[k], more[k], longer[k + 1]) {
      if k < |turns| {
        assert Next(worlds[k], turns[k], worlds[k + 1]);
      }
    }
  }

  const ONE_KNOWN: World := World(Log(1), {}, 0, Activity([], None, false))
  const ONE_LOADED: World := World(Log(1), Positions(0, 1), 0, Activity([Row(0)], Some(Cursor(0, "")), false))

  function Refreshed(n: nat): World
    requires n > PAGE_SIZE
  {
    World(Log(n + 1), Positions(n + 1 - PAGE_SIZE, n + 1) + Positions(0, 1), 0,
          Activity(MergedRows(n), Some(Cursor(0, "")), false))
  }

  lemma FirstLoad()
    ensures Next(START, Grows(Log(1)), ONE_KNOWN)
    ensures Next(ONE_KNOWN, RefreshesHead(PageOf(0, 1)), ONE_LOADED)
  {
    LogValid(1);
    assert [] + Log(1) == Log(1);
    PageAnswers(1, 0, 1);
    assert RowsDown(0, 1) == [Row(0)];
  }

  lemma Burst(n: nat)
    ensures Next(ONE_LOADED, Grows(Log(n + 1)[1..]), ONE_LOADED.(log := Log(n + 1)))
  {
    LogValid(n + 1);
    assert Log(1) + Log(n + 1)[1..] == Log(n + 1);
  }

  lemma SecondRefresh(n: nat)
    requires n > PAGE_SIZE
    ensures Next(ONE_LOADED.(log := Log(n + 1)), RefreshesHead(PageOf(n + 1 - PAGE_SIZE, n + 1)), Refreshed(n))
  {
    var w, v, page := ONE_LOADED.(log := Log(n + 1)), Refreshed(n), PageOf(n + 1 - PAGE_SIZE, n + 1);
    assert Answers(w.log, PageStart(|w.log|), |w.log|, page) by {
      PageAnswers(n + 1, n + 1 - PAGE_SIZE, n + 1);
    }
    assert Refreshes(w.list, page, v.list) by {
      RowsAreMerged(n);
    }
  }

  lemma BurstSkipsAt(n: nat, i: nat)
    requires n > PAGE_SIZE && 1 <= i <= n - PAGE_SIZE
    ensures Skipped(Refreshed(n), i)
  {
  }
}
