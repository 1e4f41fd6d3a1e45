/** The loaded activity list: merging pages by row identifier, the display
    order, and the pagination cursor (src/engine/activity.rs, provider.rs). */
module ActivityModel {
  import opened Basics

  /** A parsed row; `content` stands for the fields that are only displayed. */
  datatype Record = Record(id: string, logicalTime: nat, timestamp: u64, content: string)

  datatype Cursor = Cursor(logicalTime: nat, hash: string)

  datatype Page = Page(items: seq<Record>, cursor: Option<Cursor>, hasMore: bool)

  // ----- the display order -----

  /** Newest first; ties by timestamp, then by identifier. */
  predicate Before(a: Record, b: Record) {
    || a.logicalTime > b.logicalTime
    || (a.logicalTime == b.logicalTime && a.timestamp > b.timestamp)
    || (a.logicalTime == b.logicalTime && a.timestamp == b.timestamp && IdLess(a.id, b.id))
  }

  lemma BeforeOrders(a: Record, b: Record, c: Record)
    ensures !Before(a, a)
    ensures Before(a, b) && Before(b, c) ==> Before(a, c)
    ensures a.id != b.id ==> Before(a, b) || Before(b, a)
  {
    IdLessOrders(a.id, b.id, c.id);
  }

  ghost predicate Sorted(items: seq<Record>) {
    forall i, j :: 0 <= i < j < |items| ==> Before(items[i], items[j])
  }

  // ----- rows by identifier -----

  /** The last row given for each identifier. */
  function ById(items: seq<Record>): (m: map<string, Record>)
    ensures forall id :: id in m ==> m[id].id == id && m[id] in items
    ensures forall r :: r in items ==> r.id in m
  {
    if items == [] then map[]
    else ById(items[..|items| - 1])[items[|items| - 1].id := items[|items| - 1]]
  }

  ghost predicate Keyed(m: map<string, Record>) {
    forall id :: id in m ==> m[id].id == id
  }

  /** `items` is the map's rows in display order. */
  ghost predicate Lists(m: map<string, Record>, items: seq<Record>) {
    && Sorted(items)
    && (forall r :: r in items ==> r.id in m && m[r.id] == r)
    && (forall id :: id in m ==> m[id] in items)
  }

  lemma {:induction false} SortedUnique(a: seq<Record>, b: seq<Record>)
    requires Sorted(a) && Sorted(b)
    requires forall r :: r in a <==> r in b
    ensures a == b
  {
    assert b != [] ==> b[0] in b;
    if a != [] {
      assert a[0] in b && b != [];
      assert b[0] in a;
      if a[0] != b[0] {
        assert a[0] in b[1..] && b[0] in a[1..];
        assert Before(b[0], a[0]) && Before(a[0], b[0]);
        BeforeOrders(a[0], b[0], a[0]);
        assert false;
      }
      forall r ensures r in a[1..] <==> r in b[1..] {
        TailMembers(a, r);
        TailMembers(b, r);
      }
      SortedUnique(a[1..], b[1..]);
      assert a == [a[0]] + a[1..] && b == [b[0]] + b[1..];
    }
  }

  lemma TailMembers(a: seq<Record>, r: Record)
    requires Sorted(a) && a != []
    ensures r in a[1..] <==> r in a && r != a[0]
  {
    BeforeOrders(a[0], a[0], a[0]);
  }

  /** The listing does not depend on the order the hash map yields its rows. */
  lemma ListingUnique(m: map<string, Record>, a: seq<Record>, b: seq<Record>)
    requires Lists(m, a) && Lists(m, b)
    ensures a == b
  {
    SortedUnique(a, b);
  }

  lemma {:induction false} ListingLength(m: map<string, Record>, items: seq<Record>)
    requires Lists(m, items) && Keyed(m)
    ensures |items| == |m|
  {
    if items == [] {
      assert m.Keys == {};
    } else {
      var rest := m - {items[0].id};
      forall r | r in items[1..] ensures r.id in rest && rest[r.id] == r {
        TailMembers(items, r);
        assert m[r.id] == r && m[items[0].id] == items[0];
      }
      forall id | id in rest ensures rest[id] in items[1..] {
        TailMembers(items, m[id]);
      }
      ListingLength(rest, items[1..]);
      assert m == rest[items[0].id := items[0]];
    }
  }

  /** No identifier repeats. */
  ghost predicate Ids(items: seq<Record>) {
    forall i, j :: 0 <= i < j < |items| ==> items[i].id != items[j].id
  }

  lemma {:induction false} ByIdAt(items: seq<Record>, k: nat)
    requires Ids(items) && k < |items|
    ensures ById(items)[items[k].id] == items[k]
  {
    if k < |items| - 1 {
      ByIdAt(items[..|items| - 1], k);
    }
  }

  /** A sorted list without repeated identifiers lists its own rows. */
  lemma OwnListing(items: seq<Record>)
    requires Sorted(items) && Ids(items)
    ensures Lists(ById(items), items)
  {
    forall r | r in items ensures r.id in ById(items) && ById(items)[r.id] == r {
      var k :| 0 <= k < |items| && items[k] == r;
      ByIdAt(items, k);
    }
  }

  lemma ListedIds(m: map<string, Record>, items: seq<Record>)
    requires Lists(m, items)
    ensures Ids(items)
  {
    forall i, j | 0 <= i < j < |items| ensures items[i].id != items[j].id {
      assert items[i] in items && items[j] in items;
      BeforeOrders(items[i], items[i], items[i]);
    }
  }

  // ----- the list as the engine updates it -----

  datatype Activity = Activity(items: seq<Record>, cursor: Option<Cursor>, hasMore: bool)

  /** A page whose cursor moved to an older logical time. */
  predicate Advances(previous: Option<Cursor>, next: Option<Cursor>) {
    previous.Some? && next.Some? && next.value.logicalTime < previous.value.logicalTime
  }

  ghost predicate Merged(before: seq<Record>, rows: seq<Record>, after: seq<Record>) {
    Lists(ById(before) + ById(rows), after)
  }

  /** `apply_activity_page`. */
  ghost predicate Loads(a: Activity, page: Page, b: Activity, added: int) {
    if Advances(a.cursor, page.cursor)
    then Merged(a.items, page.items, b.items) && b.cursor == page.cursor && b.hasMore == page.hasMore
         && added == |b.items| - |a.items|
    else b == a.(hasMore := false) && added == 0
  }

  /** `apply_refreshed_activity_page`. */
  ghost predicate Refreshes(a: Activity, page: Page, b: Activity) {
    if a.items == [] then b == Activity(page.items, page.cursor, page.hasMore)
    else Merged(a.items, page.items, b.items) && b.cursor == a.cursor && b.hasMore == a.hasMore
  }

  /** The public row; numbers become decimal strings only at the binding. */
  datatype PublicRow = PublicRow(id: string, logicalTime: nat, timestamp: u64, content: string, network: int)

  function Show(r: Record, network: int): PublicRow {
    PublicRow(r.id, r.logicalTime, r.timestamp, r.content, network)
  }

  class ActivityList {
    var items: seq<Record>
    var cursor: Option<Cursor>
    var hasMore: bool
    var shownItems: seq<PublicRow>
    var shownCursor: Option<Cursor>
    var shownMore: bool
    const network: int

    function View(): Activity
      reads this
    {
      Activity(items, cursor, hasMore)
    }

    /** The public list is the image of the internal one, row by row. */
    ghost predicate Synced()
      reads this
    {
      && |shownItems| == |items|
      && (forall i :: 0 <= i < |items| ==> shownItems[i] == Show(items[i], network))
      && shownCursor == cursor && shownMore == hasMore
    }

    constructor (net: int)
      ensures View() == Activity([], None, false) && Synced() && network == net
    {
      items, cursor, hasMore := [], None, false;
      shownItems, shownCursor, shownMore := [], None, false;
      network := net;
    }

    method SyncActivitySnapshot()
      modifies this`shownItems, this`shownCursor, this`shownMore
      ensures Synced()
    {
      shownItems := [];
      for i := 0 to |items|
        invariant |shownItems| == i
        invariant forall k :: 0 <= k < i ==> shownItems[k] == Show(items[k], network)
      {
        shownItems := shownItems + [Show(items[i], network)];
      }
      shownCursor := cursor;
      shownMore := hasMore;
    }

    /** Rebuilds the list through a hash map whose iteration order is arbitrary. */
    method MergeRows(rows: seq<Record>)
      modifies this`items
      ensures Merged(old(items), rows, items)
    {
      var byId := Collected(items, map[]);
      byId := Collected(rows, byId);
      assert byId == ById(items) + ById(rows);
      items := SortedValues(byId);
    }

    method ApplyActivityPage(page: Page) returns (added: int)
      modifies this
      ensures Loads(old(View()), page, View(), added) && Synced()
    {
      if !Advances(cursor, page.cursor) {
        hasMore := false;
        SyncActivitySnapshot();
        return 0;
      }
      var previous := |items|;
      MergeRows(page.items);
      cursor := page.cursor;
      hasMore := page.hasMore;
      SyncActivitySnapshot();
      added := |items| - previous;
    }

    method ApplyRefreshedActivityPage(page: Page)
      modifies this
      ensures Refreshes(old(View()), page, View()) && Synced()
    {
      if items == [] {
        items, cursor, hasMore := page.items, page.cursor, page.hasMore;
      } else {
        MergeRows(page.items);
      }
      SyncActivitySnapshot();
    }
  }

  /** Drains a map in any order and sorts what comes out. */
  method SortedValues(byId: map<string, Record>) returns (sorted: seq<Record>)
    requires Keyed(byId)
    ensures Lists(byId, sorted)
  {
    sorted := [];
    var rest := byId.Keys;
    while rest != {}
      invariant rest <= byId.Keys && Lists(byId - rest, sorted)
      decreases |rest|
    {
      var id :| id in rest;
      var next := Inserted(sorted, byId[id]);
      InsertLists(byId - rest, sorted, byId[id], next);
      assert byId - (rest - {id}) == (byId - rest)[id := byId[id]];
      sorted, rest := next, rest - {id};
    }
    assert byId - rest == byId;
  }

  /** Inserts rows into the map in order; a later row replaces an earlier one. */
  method Collected(rows: seq<Record>, into: map<string, Record>) returns (byId: map<string, Record>)
    ensures byId == into + ById(rows)
  {
    byId := into;
    for i := 0 to |rows|
      invariant byId == into + ById(rows[..i])
    {
      OverrideGrows(into, rows, i);
      byId := byId[rows[i].id := rows[i]];
    }
    assert rows[..|rows|] == rows;
  }

  lemma OverrideGrows(into: map<string, Record>, rows: seq<Record>, i: nat)
    requires i < |rows|
    ensures into + ById(rows[..i + 1]) == (into + ById(rows[..i]))[rows[i].id := rows[i]]
  {
    assert rows[..i + 1][..i] == rows[..i];
    assert ById(rows[..i + 1]) == ById(rows[..i])[rows[i].id := rows[i]];
  }

  /** Inserts a row at its place. */
  method Inserted(sorted: seq<Record>, r: Record) returns (next: seq<Record>)
    requires Sorted(sorted) && forall q :: q in sorted ==> q.id != r.id
    ensures Sorted(next) && forall q :: q in next <==> q in sorted || q == r
  {
    var i := 0;
    while i < |sorted| && Before(sorted[i], r)
      invariant i <= |sorted| && forall k :: 0 <= k < i ==> Before(sorted[k], r)
    {
      i := i + 1;
    }
    forall k | i <= k < |sorted| ensures Before(r, sorted[k]) {
      assert sorted[i] in sorted;
      BeforeOrders(r, sorted[i], sorted[k]);
      BeforeOrders(sorted[i], r, r);
    }
    next := sorted[..i] + [r] + sorted[i..];
    InsertedAt(sorted, i, r);
  }

  lemma InsertedAt(sorted: seq<Record>, i: nat, r: Record)
    requires Sorted(sorted) && i <= |sorted|
    requires forall k :: 0 <= k < i ==> Before(sorted[k], r)
    requires forall k :: i <= k < |sorted| ==> Before(r, sorted[k])
    ensures Sorted(sorted[..i] + [r] + sorted[i..])
    ensures forall q :: q in sorted[..i] + [r] + sorted[i..] <==> q in sorted || q == r
  {
    var next := sorted[..i] + [r] + sorted[i..];
    forall j, k | 0 <= j < k < |next| ensures Before(next[j], next[k]) {
      assert next[j] == if j < i then sorted[j] else if j == i then r else sorted[j - 1];
      assert next[k] == if k < i then sorted[k] else if k == i then r else sorted[k - 1];
    }
    assert sorted == sorted[..i] + sorted[i..];
  }

  lemma InsertLists(m: map<string, Record>, sorted: seq<Record>, r: Record, next: seq<Record>)
    requires Lists(m, sorted) && r.id !in m && Sorted(next)
    requires forall q :: q in next <==> q in sorted || q == r
    ensures Lists(m[r.id := r], next)
  {
  }

  // ----- what a merge does -----

  ghost predicate ActivityOk(a: Activity) {
    Sorted(a.items) && Ids(a.items)
  }

  /** Merging refines map override: sorted, one row per identifier, every loaded
      identifier kept, the newer row on a clash, nothing else, and growth equal to
      the number of identifiers that were new. */
  lemma MergeRefines(before: seq<Record>, rows: seq<Record>, after: seq<Record>)
    requires Sorted(before) && Ids(before) && Merged(before, rows, after)
    ensures Sorted(after) && Ids(after)
    ensures forall r :: r in before && r.id !in ById(rows) ==> r in after
    ensures forall id :: id in ById(rows) ==> ById(rows)[id] in after
    ensures forall r :: r in after ==> if r.id in ById(rows) then r == ById(rows)[r.id] else r in before
    ensures |after| - |before| == |ById(rows).Keys - ById(before).Keys|
  {
    var m := ById(before) + ById(rows);
    ListedIds(m, after);
    OwnListing(before);
    ListingLength(m, after);
    ListingLength(ById(before), before);
    var added := ById(rows).Keys - ById(before).Keys;
    assert m.Keys == ById(before).Keys + added;
    forall r | r in before && r.id !in ById(rows) ensures r in after {
      assert m[r.id] == r;
    }
    forall id | id in ById(rows) ensures ById(rows)[id] in after {
      assert m[id] == ById(rows)[id];
    }
  }

  /** Loading or refreshing is a function of the list and the page. */
  lemma LoadDeterministic(a: Activity, page: Page, b: Activity, n: int, c: Activity, m: int)
    requires Loads(a, page, b, n) && Loads(a, page, c, m)
    ensures b == c && n == m
  {
    if Advances(a.cursor, page.cursor) {
      ListingUnique(ById(a.items) + ById(page.items), b.items, c.items);
    }
  }

  // ----- runs of loads and refreshes -----

  datatype Update = Load(page: Page) | Refresh(page: Page)

  /** One published answer; a load only starts with a cursor and more to read. */
  ghost predicate Updates(a: Activity, u: Update, b: Activity) {
    match u
    case Load(page) => a.hasMore && a.cursor.Some? && Loads(a, page, b, |b.items| - |a.items|)
    case Refresh(page) => Sorted(page.items) && Ids(page.items) && Refreshes(a, page, b)
  }

  ghost predicate Trace(states: seq<Activity>, updates: seq<Update>) {
    && |states| == |updates| + 1
    && (forall i :: 0 <= i < |updates| ==> Updates(states[i], updates[i], states[i + 1]))
  }

  /** The list stays sorted and duplicate-free; only a refresh of an empty list may
      move the cursor up. */
  lemma UpdateKeeps(a: Activity, u: Update, b: Activity)
    requires ActivityOk(a) && Updates(a, u, b)
    ensures ActivityOk(b)
    ensures a.items != [] ==> b.items != []
    ensures u.Refresh? && a.items != [] ==> b.cursor == a.cursor && b.hasMore == a.hasMore
    ensures u.Load? && b.hasMore ==> b.cursor.Some? && b.cursor.value.logicalTime < a.cursor.value.logicalTime
    ensures u.Load? && !b.hasMore ==> b.cursor.Some?
  {
    if !(u.Refresh? && a.items == []) && (u.Refresh? || Advances(a.cursor, u.page.cursor)) {
      MergeRefines(a.items, u.page.items, b.items);
    }
  }

  function Deepest(a: Activity): nat {
    if a.cursor.Some? then a.cursor.value.logicalTime else 0
  }

  /** How many loads of a trace left more pages to read. */
  ghost function Continuing(states: seq<Activity>, updates: seq<Update>): nat
    requires |states| == |updates| + 1
  {
    if updates == [] then 0
    else (if updates[0].Load? && states[1].hasMore then 1 else 0) + Continuing(states[1..], updates[1..])
  }

  function PageDepth(page: Page): nat {
    if page.cursor.Some? then page.cursor.value.logicalTime else 0
  }

  /** Exactly which updates move the cursor up: a refresh of an empty list whose
      page ends above it. */
  predicate Raises(a: Activity, u: Update) {
    u.Refresh? && a.items == [] && PageDepth(u.page) > Deepest(a)
  }

  lemma RaisesIff(a: Activity, u: Update, b: Activity)
    requires Updates(a, u, b)
    ensures Deepest(b) > Deepest(a) <==> Raises(a, u)
    ensures u.Load? && b.hasMore ==> Deepest(b) < Deepest(a)
    ensures u.Refresh? && a.items != [] ==> b.cursor == a.cursor && b.hasMore == a.hasMore
  {
  }

  /** How far the updates of a trace raised the cursor in all. */
  ghost function Raised(states: seq<Activity>, updates: seq<Update>): nat
    requires |states| == |updates| + 1
  {
    if updates == [] then 0
    else (if Raises(states[0], updates[0]) then PageDepth(updates[0].page) - Deepest(states[0]) else 0)
         + Raised(states[1..], updates[1..])
  }

  lemma TraceTail(states: seq<Activity>, updates: seq<Update>)
    requires Trace(states, updates) && updates != []
    ensures Trace(states[1..], updates[1..])
  {
    forall i | 0 <= i < |updates[1..]| ensures Updates(states[1..][i], updates[1..][i], states[1..][i + 1]) {
      assert Updates(states[i + 1], updates[i + 1], states[i + 2]);
    }
  }

  /** Every run keeps the list sorted and free of repeated identifiers, and a list
      that holds a row never becomes empty. */
  lemma {:induction false} RunKeepsOrder(states: seq<Activity>, updates: seq<Update>)
    requires Trace(states, updates) && ActivityOk(states[0])
    ensures ActivityOk(states[|updates|])
    ensures states[0].items != [] ==> states[|updates|].items != []
    decreases |updates|
  {
    if updates != [] {
      assert Updates(states[0], updates[0], states[1]);
      UpdateKeeps(states[0], updates[0], states[1]);
      TraceTail(states, updates);
      RunKeepsOrder(states[1..], updates[1..]);
    }
  }

  /** In every run whatsoever, the loads that leave more to read are paid for by
      the cursor: by what it stood at and by what refreshes of an empty list added. */
  lemma {:induction false} LoadsArePaid(states: seq<Activity>, updates: seq<Update>)
    requires Trace(states, updates)
    ensures Continuing(states, updates) + Deepest(states[|updates|]) <= Deepest(states[0]) + Raised(states, updates)
    decreases |updates|
  {
    if updates != [] {
      TraceTail(states, updates);
      LoadsArePaid(states[1..], updates[1..]);
      assert Updates(states[0], updates[0], states[1]);
      RaisesIff(states[0], updates[0], states[1]);
    }
  }

  lemma {:induction false} NothingRaised(states: seq<Activity>, updates: seq<Update>)
    requires |states| == |updates| + 1
    requires forall i :: 0 <= i < |updates| ==> !Raises(states[i], updates[i])
    ensures Raised(states, updates) == 0
    decreases |updates|
  {
    if updates != [] {
      assert !Raises(states[0], updates[0]);
      forall i | 0 <= i < |updates[1..]| ensures !Raises(states[1..][i], updates[1..][i]) {
        assert !Raises(states[i + 1], updates[i + 1]);
      }
      NothingRaised(states[1..], updates[1..]);
    }
  }

  /** Pagination terminates whatever the provider answers: in every run without a
      refresh of an empty list, from any state, the loads that leave more to read
      are at most as many as the cursor's logical time. */
  lemma LoadsTerminate(states: seq<Activity>, updates: seq<Update>)
    requires Trace(states, updates)
    requires forall i :: 0 <= i < |updates| && updates[i].Refresh? ==> states[i].items != []
    ensures Continuing(states, updates) + Deepest(states[|updates|]) <= Deepest(states[0])
  {
    forall i | 0 <= i < |updates| ensures !Raises(states[i], updates[i]) {
      if updates[i].Refresh? {
        assert states[i].items != [];
      }
    }
    NothingRaised(states, updates);
    LoadsArePaid(states, updates);
  }

  const LOW: Cursor := Cursor(10, "low")
  const HIGH: Cursor := Cursor(20, "high")

  const EMPTY_LOW: Activity := Activity([], Some(LOW), true)
  const EMPTY_HIGH: Activity := Activity([], Some(HIGH), true)
  const UP: Update := Refresh(Page([], Some(HIGH), true))
  const DOWN: Update := Load(Page([], Some(LOW), true))

  lemma UpAndDown()
    ensures Updates(EMPTY_LOW, UP, EMPTY_HIGH) && Updates(EMPTY_HIGH, DOWN, EMPTY_LOW)
  {
    assert Lists(ById([]) + ById([]), []);
  }

  lemma {:induction false} Cycle(n: nat) returns (states: seq<Activity>, updates: seq<Update>)
    ensures Trace(states, updates) && |updates| == 2 * n
    ensures states[0] == EMPTY_LOW && states[|updates|] == EMPTY_LOW
    ensures Continuing(states, updates) == n
  {
    if n == 0 {
      states, updates := [EMPTY_LOW], [];
    } else {
      var rest, more := Cycle(n - 1);
      UpAndDown();
      states, updates := [EMPTY_LOW, EMPTY_HIGH] + rest, [UP, DOWN] + more;
      forall i | 0 <= i < |updates| ensures Updates(states[i], updates[i], states[i + 1]) {
        if i >= 2 {
          assert Updates(rest[i - 2], more[i - 2], rest[i - 1]);
        }
      }
      CycleCounts(rest, more);
    }
  }

  lemma CycleCounts(rest: seq<Activity>, more: seq<Update>)
    requires |rest| == |more| + 1 && rest[0].hasMore
    ensures Continuing([EMPTY_LOW, EMPTY_HIGH] + rest, [UP, DOWN] + more) == 1 + Continuing(rest, more)
  {
    var states, updates := [EMPTY_LOW, EMPTY_HIGH] + rest, [UP, DOWN] + more;
    assert states[1..] == [EMPTY_HIGH] + rest && updates[1..] == [DOWN] + more;
    assert states[1..][1..] == rest && updates[1..][1..] == more;
  }

  /** A new client that is answered full pages without a single row: its first
      refresh sets a cursor, every further one lifts it, and a load lowers it again,
      so loads that leave more to read never run out. */
  lemma EmptyListCycles(n: nat) returns (states: seq<Activity>, updates: seq<Update>)
    ensures Trace(states, updates) && |updates| == 2 * n + 1
    ensures states[0] == Activity([], None, false) && states[1] == states[|updates|]
    ensures Continuing(states, updates) == n
  {
    var rest, more := Cycle(n);
    var blank, first := Activity([], None, false), Refresh(Page([], Some(LOW), true));
    states, updates := [blank] + rest, [first] + more;
    forall i | 0 <= i < |updates| ensures Updates(states[i], updates[i], states[i + 1]) {
      if i >= 1 {
        assert Updates(rest[i - 1], more[i - 1], rest[i]);
      }
    }
    assert states[1..] == rest && updates[1..] == more;
  }
}
