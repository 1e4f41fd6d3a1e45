/** Bookkeeping of a TON Connect session: requests awaiting an answer and the one
    response awaiting delivery (src/ton_connect.rs). The bridge client and the
    request codec are external; their results are parameters. */
module TonConnect {
  import opened Basics

  datatype Request = Request(id: string, body: string)

  datatype Post = Post(url: string, body: string)

  datatype Session = Session(pending: map<string, Request>, post: Option<Post>, network: Option<string>)

  datatype Error = Undecodable | DuplicateId | NotPending | PostPending | Rejected

  /** Every pending request is filed under its own identifier. */
  ghost predicate Filed(pending: map<string, Request>) {
    forall id :: id in pending ==> pending[id].id == id
  }

  // ----- ingesting a chunk -----

  /** Files requests in order. A request that does not decode stops the call
      before it is filed; one whose identifier is taken replaces the filed one and
      then stops the call. `lost` are the requests no map holds afterwards. */
  datatype Ingested = Ingested(pending: map<string, Request>, result: Result<seq<Request>, Error>, lost: multiset<Request>)

  function Ingest(pending: map<string, Request>, incoming: seq<Request>, decodes: Request -> bool): Ingested
    decreases |incoming|
  {
    if incoming == [] then Ingested(pending, Success([]), multiset{})
    else
      var r := incoming[0];
      if !decodes(r) then Ingested(pending, Failure(Undecodable), multiset(incoming))
      else if r.id in pending then
        Ingested(pending[r.id := r], Failure(DuplicateId), multiset{pending[r.id]} + multiset(incoming[1..]))
      else
        var rest := Ingest(pending[r.id := r], incoming[1..], decodes);
        rest.(result := match rest.result case Failure(e) => Failure(e) case Success(more) => Success([r] + more))
  }

  /** Conservation: what was filed and what arrived is filed afterwards or lost. */
  lemma {:induction false} IngestConserves(pending: map<string, Request>, incoming: seq<Request>, decodes: Request -> bool)
    requires Filed(pending)
    ensures var out := Ingest(pending, incoming, decodes);
            && Filed(out.pending)
            && multiset(pending.Values) + multiset(incoming) == multiset(out.pending.Values) + out.lost
    decreases |incoming|
  {
    if incoming != [] {
      var r := incoming[0];
      assert incoming == [r] + incoming[1..];
      if decodes(r) {
        if r.id in pending {
          ReplaceValue(pending, r);
          Exchange(multiset(pending.Values), multiset(pending[r.id := r].Values), r, pending[r.id], multiset(incoming[1..]));
        } else {
          AddValue(pending, r);
          IngestConserves(pending[r.id := r], incoming[1..], decodes);
        }
      }
    }
  }

  lemma Exchange(a: multiset<Request>, b: multiset<Request>, r: Request, q: Request, rest: multiset<Request>)
    requires a + multiset{r} == b + multiset{q}
    ensures a + (multiset{r} + rest) == b + (multiset{q} + rest)
  {
    assert a + (multiset{r} + rest) == (a + multiset{r}) + rest;
    assert b + (multiset{q} + rest) == (b + multiset{q}) + rest;
  }

  lemma AddValue(pending: map<string, Request>, r: Request)
    requires Filed(pending) && r.id !in pending
    ensures Filed(pending[r.id := r])
    ensures multiset(pending[r.id := r].Values) == multiset(pending.Values) + multiset{r}
  {
    var more := pending[r.id := r];
    assert r !in pending.Values;
    assert more.Values == pending.Values + {r} by {
      forall v ensures v in more.Values <==> v in pending.Values || v == r {
        if v in pending.Values { assert more[v.id] == v; }
        if v == r { assert more[r.id] == r; }
      }
    }
  }

  lemma RemoveValue(pending: map<string, Request>, id: string)
    requires Filed(pending) && id in pending
    ensures Filed(pending - {id})
    ensures multiset(pending.Values) == multiset((pending - {id}).Values) + multiset{pending[id]}
  {
    AddValue(pending - {id}, pending[id]);
    assert (pending - {id})[id := pending[id]] == pending;
  }

  lemma ReplaceValue(pending: map<string, Request>, r: Request)
    requires Filed(pending) && r.id in pending
    ensures Filed(pending[r.id := r])
    ensures multiset(pending.Values) + multiset{r} == multiset(pending[r.id := r].Values) + multiset{pending[r.id]}
  {
    RemoveValue(pending, r.id);
    AddValue(pending - {r.id}, r);
    assert (pending - {r.id})[r.id := r] == pending[r.id := r];
  }

  ghost predicate Acceptable(pending: map<string, Request>, incoming: seq<Request>, decodes: Request -> bool) {
    && (forall i :: 0 <= i < |incoming| ==> decodes(incoming[i]) && incoming[i].id !in pending)
    && (forall i, j :: 0 <= i < j < |incoming| ==> incoming[i].id != incoming[j].id)
  }

  /** A call succeeds exactly when every request decodes and no identifier is taken
      or repeated; then it returns them all in order, and a call loses a request
      exactly when it fails. */
  lemma {:induction false} IngestSucceedsIff(pending: map<string, Request>, incoming: seq<Request>, decodes: Request -> bool)
    ensures var out := Ingest(pending, incoming, decodes);
            && (out.result.Success? <==> Acceptable(pending, incoming, decodes))
            && (out.result.Success? ==> out.result.value == incoming)
            && (out.result.Success? <==> out.lost == multiset{})
    decreases |incoming|
  {
    if incoming != [] {
      var r, rest := incoming[0], incoming[1..];
      assert incoming == [r] + rest;
      if decodes(r) && r.id !in pending {
        IngestSucceedsIff(pending[r.id := r], rest, decodes);
        AcceptableTail(pending, incoming, decodes);
      } else if decodes(r) {
        var lost := multiset{pending[r.id]} + multiset(rest);
        assert pending[r.id] in lost;
      } else {
        assert r in multiset(incoming);
      }
    }
  }

  lemma AcceptableTail(pending: map<string, Request>, incoming: seq<Request>, decodes: Request -> bool)
    requires incoming != [] && decodes(incoming[0]) && incoming[0].id !in pending
    ensures Acceptable(pending, incoming, decodes)
       <==> Acceptable(pending[incoming[0].id := incoming[0]], incoming[1..], decodes)
  {
    var r, rest := incoming[0], incoming[1..];
    var more := pending[r.id := r];
    assert forall i :: 0 <= i < |rest| ==> rest[i] == incoming[i + 1];
    if Acceptable(more, rest, decodes) {
      forall i | 0 <= i < |incoming| ensures decodes(incoming[i]) && incoming[i].id !in pending {
        if i > 0 { assert rest[i - 1] == incoming[i] && rest[i - 1].id !in more; }
      }
      forall i, j | 0 <= i < j < |incoming| ensures incoming[i].id != incoming[j].id {
        assert rest[j - 1] == incoming[j] && rest[j - 1].id !in more;
        if i > 0 { assert rest[i - 1].id != rest[j - 1].id; }
      }
    }
    if Acceptable(pending, incoming, decodes) {
      forall i | 0 <= i < |rest| ensures decodes(rest[i]) && rest[i].id !in more {
        assert incoming[0].id != incoming[i + 1].id;
      }
      forall i, j | 0 <= i < j < |rest| ensures rest[i].id != rest[j].id {
        assert incoming[i + 1].id != incoming[j + 1].id;
      }
    }
  }

  // ----- the other calls -----

  /** A response for a pending request: `prepared` is what the client encrypts. */
  function Respond(s: Session, id: string, prepared: Option<Post>): (Session, Result<Post, Error>) {
    if s.post.Some? then (s, Failure(PostPending))
    else if id !in s.pending then (s, Failure(NotPending))
    else if prepared.None? then (s, Failure(Rejected))
    else (s.(pending := s.pending - {id}, post := prepared), Success(prepared.value))
  }

  /** Approving or rejecting a connection, or disconnecting. */
  function StageEvent(s: Session, prepared: Option<Post>, network: Option<string>): (Session, Result<Post, Error>) {
    if s.post.Some? then (s, Failure(PostPending))
    else if prepared.None? then (s, Failure(Rejected))
    else (s.(post := prepared, network := if network.Some? then network else s.network), Success(prepared.value))
  }

  /** What is stored: the requests as a list. */
  datatype Persisted = Persisted(requests: seq<Request>, post: Option<Post>, network: Option<string>)

  /** Refiles stored requests; a repeated identifier refuses the whole session. */
  function Refile(requests: seq<Request>): Option<map<string, Request>> {
    if requests == [] then Some(map[])
    else
      match Refile(requests[..|requests| - 1])
      case None => None
      case Some(filed) =>
        var r := requests[|requests| - 1];
        if r.id in filed then None else Some(filed[r.id := r])
  }

  /** The stored list holds each pending request once, in some order. */
  ghost predicate Stores(pending: map<string, Request>, requests: seq<Request>) {
    && (forall r :: r in requests ==> r.id in pending && pending[r.id] == r)
    && (forall id :: id in pending ==> pending[id] in requests)
    && (forall i, j :: 0 <= i < j < |requests| ==> requests[i].id != requests[j].id)
  }

  lemma {:induction false} RefilePrefix(pending: map<string, Request>, requests: seq<Request>, n: nat)
    requires Stores(pending, requests) && n <= |requests|
    ensures Refile(requests[..n]).Some?
    ensures var filed := Refile(requests[..n]).value;
            && (forall id :: id in filed ==> id in pending && filed[id] == pending[id])
            && (forall id :: id in filed <==> Named(requests, n, id))
  {
    if n > 0 {
      RefilePrefix(pending, requests, n - 1);
      assert requests[..n][..n - 1] == requests[..n - 1];
      assert requests[n - 1] in requests;
      forall id ensures Named(requests, n, id) <==> Named(requests, n - 1, id) || id == requests[n - 1].id {
      }
      assert !Named(requests, n - 1, requests[n - 1].id);
    }
  }

  /** One of the first `n` requests has this identifier. */
  ghost predicate Named(requests: seq<Request>, n: nat, id: string)
    requires n <= |requests|
  {
    exists i :: 0 <= i < n && requests[i].id == id
  }

  /** Storing and restoring gives back the same pending requests, and never fails
      on a repeated identifier, whatever order the list was stored in. */
  lemma RestoreUndoesPersist(pending: map<string, Request>, requests: seq<Request>)
    requires Filed(pending) && Stores(pending, requests)
    ensures Refile(requests) == Some(pending)
  {
    RefilePrefix(pending, requests, |requests|);
    assert requests[..|requests|] == requests;
    var filed := Refile(requests).value;
    forall id | id in pending ensures id in filed {
      var i :| 0 <= i < |requests| && requests[i] == pending[id];
      assert requests[i].id == id;
    }
    assert filed == pending;
  }

  class TonConnectSession {
    var pending: map<string, Request>
    var post: Option<Post>
    var network: Option<string>

    function View(): Session
      reads this
    {
      Session(pending, post, network)
    }

    constructor FromLink()
      ensures View() == Session(map[], None, None)
    {
      pending, post, network := map[], None, None;
    }

    /** Restores the stored fields. */
    constructor Load(filed: map<string, Request>, staged: Option<Post>, connected: Option<string>)
      ensures View() == Session(filed, staged, connected)
    {
      pending, post, network := filed, staged, connected;
    }

    method IngestSseChunk(incoming: seq<Request>, decodes: Request -> bool) returns (r: Result<seq<Request>, Error>)
      modifies this`pending
      ensures pending == Ingest(old(pending), incoming, decodes).pending
      ensures r == Ingest(old(pending), incoming, decodes).result
    {
      var decoded: seq<Request> := [];
      ResumesStart(pending, incoming, decodes);
      for i := 0 to |incoming|
        invariant Resumes(old(pending), incoming, decodes, i, pending, decoded)
      {
        ghost var before := pending;
        var request := incoming[i];
        assert incoming[i..][0] == request && incoming[i..][1..] == incoming[i + 1..];
        if !decodes(request) {
          return Failure(Undecodable);
        }
        var taken := request.id in pending;
        pending := pending[request.id := request];
        if taken {
          return Failure(DuplicateId);
        }
        decoded := decoded + [request];
        ResumesNext(old(pending), incoming, decodes, i, before, decoded[..i]);
        assert decoded[..i] + [request] == decoded;
      }
      assert incoming[|incoming|..] == [] && decoded + [] == decoded;
      r := Success(decoded);
    }

    method PrepareResponse(id: string, prepared: Option<Post>) returns (r: Result<Post, Error>)
      modifies this`pending, this`post
      ensures (View(), r) == Respond(old(View()), id, prepared)
    {
      if post.Some? {
        return Failure(PostPending);
      }
      if id !in pending {
        return Failure(NotPending);
      }
      if prepared.None? {
        return Failure(Rejected);
      }
      pending := pending - {id};
      post := prepared;
      r := Success(prepared.value);
    }

    /** The tail of `approve_connect`, `reject_connect`, and `disconnect`. */
    method StageConnectionEvent(prepared: Option<Post>, connected: Option<string>) returns (r: Result<Post, Error>)
      modifies this`post, this`network
      ensures (View(), r) == StageEvent(old(View()), prepared, connected)
    {
      if post.Some? {
        return Failure(PostPending);
      }
      if prepared.None? {
        return Failure(Rejected);
      }
      if connected.Some? {
        network := connected;
      }
      post := prepared;
      r := Success(prepared.value);
    }

    method CompletePendingPost()
      modifies this`post
      ensures View() == old(View()).(post := None)
    {
      post := None;
    }

    method BeginEventsSubscription() returns (ok: bool)
      ensures ok <==> post.None?
    {
      ok := post.None?;
    }

    /** The ordered map yields its requests by identifier. */
    method PersistedSession() returns (stored: Persisted)
      requires Filed(pending)
      ensures Stores(pending, stored.requests) && InOrder(stored.requests)
      ensures stored.post == post && stored.network == network
    {
      var requests: seq<Request> := [];
      var rest := pending.Keys;
      while rest != {}
        invariant rest <= pending.Keys && Stores(pending - rest, requests) && InOrder(requests)
        invariant AllBefore(requests, rest)
        decreases |rest|
      {
        SmallestExists(rest);
        var id :| id in rest && Smallest(rest, id);
        StoreOne(pending, rest, requests, id);
        StoreInOrder(requests, rest, pending[id]);
        requests, rest := requests + [pending[id]], rest - {id};
      }
      assert pending - rest == pending;
      stored := Persisted(requests, post, network);
    }
  }

  ghost predicate InOrder(requests: seq<Request>) {
    forall i, j :: 0 <= i < j < |requests| ==> IdLess(requests[i].id, requests[j].id)
  }

  /** Every stored identifier comes before every one still to be stored. */
  ghost predicate AllBefore(requests: seq<Request>, rest: set<string>) {
    forall i, id :: 0 <= i < |requests| && id in rest ==> IdLess(requests[i].id, id)
  }

  lemma StoreInOrder(requests: seq<Request>, rest: set<string>, r: Request)
    requires InOrder(requests) && AllBefore(requests, rest) && r.id in rest && Smallest(rest, r.id)
    ensures InOrder(requests + [r]) && AllBefore(requests + [r], rest - {r.id})
  {
  }

  predicate Smallest(ids: set<string>, id: string) {
    forall other :: other in ids && other != id ==> IdLess(id, other)
  }

  lemma {:induction false} SmallestExists(ids: set<string>)
    requires ids != {}
    ensures exists id :: id in ids && Smallest(ids, id)
    decreases |ids|
  {
    var one :| one in ids;
    var rest := ids - {one};
    if rest == {} {
      assert ids == {one};
    } else {
      SmallestExists(rest);
      var least :| least in rest && Smallest(rest, least);
      IdLessOrders(one, least, one);
      if IdLess(one, least) {
        forall other | other in ids && other != one ensures IdLess(one, other) {
          IdLessOrders(one, least, other);
        }
        assert Smallest(ids, one);
      } else {
        assert Smallest(ids, least);
      }
    }
  }

  lemma StoreOne(pending: map<string, Request>, rest: set<string>, requests: seq<Request>, id: string)
    requires Filed(pending) && rest <= pending.Keys && Stores(pending - rest, requests) && id in rest
    ensures Stores(pending - (rest - {id}), requests + [pending[id]])
  {
    var longer := requests + [pending[id]];
    forall i, j | 0 <= i < j < |longer| ensures longer[i].id != longer[j].id {
      assert longer[i] in requests;
    }
    var filed := pending - (rest - {id});
    forall other | other in filed ensures filed[other] in longer {
      if other == id {
        assert longer[|requests|] == pending[id];
      } else {
        assert (pending - rest)[other] in requests;
      }
    }
  }

  /** `ton_connect_session_restore`. */
  method RestoreSession(stored: Persisted) returns (r: Option<TonConnectSession>)
    ensures r.Some? <==> Refile(stored.requests).Some?
    ensures r.Some? ==> fresh(r.value)
                        && r.value.View() == Session(Refile(stored.requests).value, stored.post, stored.network)
  {
    var filed: map<string, Request> := map[];
    for i := 0 to |stored.requests|
      invariant Refile(stored.requests[..i]) == Some(filed)
    {
      assert stored.requests[..i + 1][..i] == stored.requests[..i];
      var request := stored.requests[i];
      if request.id in filed {
        RefileFails(stored.requests, i + 1);
        return None;
      }
      filed := filed[request.id := request];
    }
    assert stored.requests[..|stored.requests|] == stored.requests;
    var session := new TonConnectSession.Load(filed, stored.post, stored.network);
    r := Some(session);
  }

  lemma {:induction false} RefileFails(requests: seq<Request>, n: nat)
    requires n <= |requests| && Refile(requests[..n]).None?
    ensures Refile(requests).None?
    decreases |requests| - n
  {
    if n < |requests| {
      assert requests[..n + 1][..n] == requests[..n];
      RefileFails(requests, n + 1);
    } else {
      assert requests[..n] == requests;
    }
  }

  /** After `i` requests the loop continues as a fresh call on the rest would. */
  ghost predicate Resumes(start: map<string, Request>, incoming: seq<Request>, decodes: Request -> bool,
                          i: nat, pending: map<string, Request>, decoded: seq<Request>)
    requires i <= |incoming|
  {
    && |decoded| == i
    && var whole, rest := Ingest(start, incoming, decodes), Ingest(pending, incoming[i..], decodes);
       && whole.pending == rest.pending
       && whole.result == match rest.result case Failure(e) => Failure(e) case Success(more) => Success(decoded + more)
  }

  lemma ResumesStart(start: map<string, Request>, incoming: seq<Request>, decodes: Request -> bool)
    ensures Resumes(start, incoming, decodes, 0, start, [])
  {
    assert incoming[0..] == incoming;
    var whole := Ingest(start, incoming, decodes);
    if whole.result.Success? {
      assert [] + whole.result.value == whole.result.value;
    }
  }

  lemma ResumesNext(start: map<string, Request>, incoming: seq<Request>, decodes: Request -> bool,
                    i: nat, pending: map<string, Request>, decoded: seq<Request>)
    requires i < |incoming| && Resumes(start, incoming, decodes, i, pending, decoded)
    requires decodes(incoming[i]) && incoming[i].id !in pending
    ensures Resumes(start, incoming, decodes, i + 1, pending[incoming[i].id := incoming[i]], decoded + [incoming[i]])
  {
    var r := incoming[i];
    assert incoming[i..][0] == r && incoming[i..][1..] == incoming[i + 1..];
    var next := Ingest(pending[r.id := r], incoming[i + 1..], decodes);
    if next.result.Success? {
      assert decoded + ([r] + next.result.value) == (decoded + [r]) + next.result.value;
    }
  }

  // ----- whole runs -----

  datatype Call =
    | Ingests(incoming: seq<Request>, decodes: Request -> bool)
    | Responds(id: string, prepared: Option<Post>)
    | Stages(prepared: Option<Post>, network: Option<string>)
    | Completes
    | Subscribes
    | Restarts(requests: seq<Request>)

  /** A session with its history: requests the bridge delivered, requests that were
      answered or lost, posts in the order they were staged, posts delivered, and
      for every event stream opened how many posts were staged and delivered then. */
  datatype Ledger = Ledger(
    session: Session,
    delivered: multiset<Request>,
    answered: multiset<Request>,
    lost: multiset<Request>,
    staged: seq<Post>,
    done: seq<Post>,
    openings: seq<(nat, nat)>)

  const NEW_LEDGER := Ledger(Session(map[], None, None), multiset{}, multiset{}, multiset{}, [], [], [])

  /** A restart stores the session and restores it from what was stored. */
  ghost predicate MayCall(l: Ledger, call: Call) {
    call.Restarts? ==> Stores(l.session.pending, call.requests)
  }

  function Called(l: Ledger, call: Call): Ledger {
    var s := l.session;
    match call
    case Ingests(incoming, decodes) =>
      var out := Ingest(s.pending, incoming, decodes);
      l.(session := s.(pending := out.pending), delivered := l.delivered + multiset(incoming), lost := l.lost + out.lost)
    case Responds(id, prepared) =>
      var (next, r) := Respond(s, id, prepared);
      if r.Failure? then l
      else l.(session := next, answered := l.answered + (if id in s.pending then multiset{s.pending[id]} else multiset{}),
              staged := l.staged + [r.value])
    case Stages(prepared, network) =>
      var (next, r) := StageEvent(s, prepared, network);
      if r.Failure? then l else l.(session := next, staged := l.staged + [r.value])
    case Completes =>
      l.(session := s.(post := None), done := if s.post.Some? then l.done + [s.post.value] else l.done)
    case Subscribes =>
      if s.post.Some? then l else l.(openings := l.openings + [(|l.staged|, |l.done|)])
    case Restarts(requests) =>
      match Refile(requests)
      case None => l
      case Some(filed) => l.(session := Session(filed, s.post, s.network))
  }

  function PostList(post: Option<Post>): seq<Post> {
    match post case None => [] case Some(p) => [p]
  }

  ghost predicate LedgerOk(l: Ledger) {
    && Filed(l.session.pending)
    && l.delivered == multiset(l.session.pending.Values) + l.answered + l.lost
    && l.staged == l.done + PostList(l.session.post)
    && (forall i :: 0 <= i < |l.openings| ==> l.openings[i].0 == l.openings[i].1)
  }

  lemma IngestKeeps(l: Ledger, incoming: seq<Request>, decodes: Request -> bool)
    requires LedgerOk(l)
    ensures LedgerOk(Called(l, Ingests(incoming, decodes)))
  {
    var before := multiset(l.session.pending.Values);
    IngestConserves(l.session.pending, incoming, decodes);
    var out := Ingest(l.session.pending, incoming, decodes);
    var filed := multiset(out.pending.Values);
    assert (before + l.answered + l.lost) + multiset(incoming) == (before + multiset(incoming)) + l.answered + l.lost;
    assert (filed + out.lost) + l.answered + l.lost == filed + l.answered + (l.lost + out.lost);
  }

  lemma RespondKeeps(l: Ledger, id: string, prepared: Option<Post>)
    requires LedgerOk(l)
    ensures LedgerOk(Called(l, Responds(id, prepared)))
  {
    if id in l.session.pending {
      RemoveValue(l.session.pending, id);
      var rest, q := multiset((l.session.pending - {id}).Values), multiset{l.session.pending[id]};
      assert (rest + q) + l.answered + l.lost == rest + (l.answered + q) + l.lost;
    }
  }

  lemma CallKeeps(l: Ledger, call: Call)
    requires LedgerOk(l) && MayCall(l, call)
    ensures LedgerOk(Called(l, call))
    ensures call.Restarts? ==> Called(l, call) == l
  {
    match call {
      case Ingests(incoming, decodes) => IngestKeeps(l, incoming, decodes);
      case Responds(id, prepared) => RespondKeeps(l, id, prepared);
      case Stages(prepared, network) =>
      case Completes =>
      case Subscribes =>
      case Restarts(requests) => RestoreUndoesPersist(l.session.pending, requests);
    }
  }

  function CalledAll(l: Ledger, calls: seq<Call>): Ledger
    decreases |calls|
  {
    if calls == [] then l else Called(CalledAll(l, calls[..|calls| - 1]), calls[|calls| - 1])
  }

  ghost predicate MayCallAll(l: Ledger, calls: seq<Call>) {
    forall i :: 0 <= i < |calls| ==> MayCall(CalledAll(l, calls[..i]), calls[i])
  }

  /** Over every run, with restarts anywhere: the posts staged so far are the ones
      delivered, in order, followed by the pending one, so none is overwritten or
      dropped; every delivered request is pending, answered, or was lost by a failed
      ingest, exactly once; and every event stream was opened with all posts staged
      until then delivered. */
  lemma RunsConserve(calls: seq<Call>)
    requires MayCallAll(NEW_LEDGER, calls)
    ensures LedgerOk(CalledAll(NEW_LEDGER, calls))
  {
    RunKeeps(NEW_LEDGER, calls);
  }

  lemma {:induction false} RunKeeps(l: Ledger, calls: seq<Call>)
    requires LedgerOk(l) && MayCallAll(l, calls)
    ensures LedgerOk(CalledAll(l, calls))
    decreases |calls|
  {
    if calls != [] {
      var n := |calls| - 1;
      ShorterRun(l, calls);
      RunKeeps(l, calls[..n]);
      CallKeeps(CalledAll(l, calls[..n]), calls[n]);
    }
  }

  lemma ShorterRun(l: Ledger, calls: seq<Call>)
    requires MayCallAll(l, calls) && calls != []
    ensures MayCallAll(l, calls[..|calls| - 1]) && MayCall(CalledAll(l, calls[..|calls| - 1]), calls[|calls| - 1])
  {
    var n := |calls| - 1;
    forall i | 0 <= i < n ensures MayCall(CalledAll(l, calls[..n][..i]), calls[..n][i]) {
      assert calls[..n][..i] == calls[..i];
    }
  }

  /** A stream is opened exactly when every post staged so far was delivered. */
  lemma SubscribesIff(calls: seq<Call>)
    requires MayCallAll(NEW_LEDGER, calls)
    ensures var l := CalledAll(NEW_LEDGER, calls);
            Opens(l) <==> l.staged == l.done
  {
    assert LedgerOk(CalledAll(NEW_LEDGER, calls)) by { RunsConserve(calls); }
    AllDeliveredIff(CalledAll(NEW_LEDGER, calls));
  }

  /** A subscription now would be granted. */
  predicate Opens(l: Ledger) {
    Called(l, Subscribes) != l
  }

  lemma AllDeliveredIff(l: Ledger)
    requires LedgerOk(l)
    ensures Opens(l) <==> l.staged == l.done
  {
    assert |l.staged| == |l.done| + |PostList(l.session.post)|;
    assert |l.openings + [(|l.staged|, |l.done|)]| != |l.openings|;
  }

  /** Every chunk of the run was acceptable where it arrived: all its requests
      decode and none of their identifiers is pending or repeated. */
  ghost predicate AllAcceptable(calls: seq<Call>) {
    forall i :: 0 <= i < |calls| ==> AcceptableAt(calls, i)
  }

  ghost predicate AcceptableAt(calls: seq<Call>, i: nat)
    requires i < |calls|
  {
    AcceptableCall(CalledAll(NEW_LEDGER, calls[..i]), calls[i])
  }

  ghost predicate AcceptableCall(l: Ledger, call: Call) {
    call.Ingests? ==> Acceptable(l.session.pending, call.incoming, call.decodes)
  }

  /** Nothing was lost over a run exactly when every chunk was acceptable. */
  lemma {:induction false} NothingLostIff(calls: seq<Call>)
    ensures CalledAll(NEW_LEDGER, calls).lost == multiset{} <==> AllAcceptable(calls)
    decreases |calls|
  {
    if calls != [] {
      var n := |calls| - 1;
      NothingLostIff(calls[..n]);
      LossGrows(CalledAll(NEW_LEDGER, calls[..n]), calls[n]);
      AllAcceptableLonger(calls);
    }
  }

  lemma AllAcceptableLonger(calls: seq<Call>)
    requires calls != []
    ensures var n := |calls| - 1;
            AllAcceptable(calls) <==>
            AllAcceptable(calls[..n]) && AcceptableAt(calls, n)
  {
    var n := |calls| - 1;
    var front := calls[..n];
    forall i | 0 <= i < n ensures AcceptableAt(front, i) <==> AcceptableAt(calls, i) {
      assert front[..i] == calls[..i];
    }
  }

  lemma LossGrows(l: Ledger, call: Call)
    ensures Called(l, call).lost == multiset{} <==> l.lost == multiset{} && AcceptableCall(l, call)
  {
    if call.Ingests? {
      IngestSucceedsIff(l.session.pending, call.incoming, call.decodes);
      var out := Ingest(l.session.pending, call.incoming, call.decodes);
      SumEmpty(l.lost, out.lost);
    }
  }

  lemma SumEmpty(a: multiset<Request>, b: multiset<Request>)
    ensures a + b == multiset{} <==> a == multiset{} && b == multiset{}
  {
    assert |a + b| == |a| + |b|;
  }

  /** A losing run: the second chunk repeats a pending identifier, the call fails,
      and the first request is gone although nobody answered it. */
  lemma RepeatedIdLoses()
    ensures var first, second := Request("1", "pay"), Request("1", "sign");
            var calls := [Ingests([first], _ => true), Ingests([second], _ => true)];
            var l := CalledAll(NEW_LEDGER, calls);
            MayCallAll(NEW_LEDGER, calls) && l.lost == multiset{first} && l.session.pending == map["1" := second]
  {
    var first, second := Request("1", "pay"), Request("1", "sign");
    CalledTwice(NEW_LEDGER, Ingests([first], _ => true), Ingests([second], _ => true));
    OneFiled(first, second, _ => true);
  }

  lemma OneFiled(first: Request, second: Request, decodes: Request -> bool)
    requires decodes(first) && decodes(second) && first.id == second.id
    ensures Ingest(map[], [first], decodes) == Ingested(map[first.id := first], Success([first]), multiset{})
    ensures Ingest(map[first.id := first], [second], decodes)
         == Ingested(map[first.id := second], Failure(DuplicateId), multiset{first})
  {
    assert [first][1..] == [] && [second][1..] == [];
    assert [first] + [] == [first];
  }

  lemma CalledTwice(l: Ledger, a: Call, b: Call)
    requires !a.Restarts? && !b.Restarts?
    ensures CalledAll(l, [a, b]) == Called(Called(l, a), b) && MayCallAll(l, [a, b])
  {
    assert [a, b][..1] == [a] && [a][..0] == [];
    assert CalledAll(l, [a]) == Called(l, a);
  }

  // ----- restoring an older stored session -----

  lemma {:induction false} HistoryGrows(l: Ledger, calls: seq<Call>)
    ensures var m := CalledAll(l, calls);
            l.delivered <= m.delivered && l.answered <= m.answered && l.lost <= m.lost && l.done <= m.done
    decreases |calls|
  {
    if calls != [] {
      HistoryGrows(l, calls[..|calls| - 1]);
      CallGrows(CalledAll(l, calls[..|calls| - 1]), calls[|calls| - 1]);
    }
  }

  lemma CallGrows(l: Ledger, call: Call)
    ensures var m := Called(l, call);
            l.delivered <= m.delivered && l.answered <= m.answered && l.lost <= m.lost && l.done <= m.done
  {
  }

  /** What restoring the session stored at `l` costs after the run has gone on to
      `m`: the requests pending then and those delivered since are exactly the ones
      pending now, answered since, or lost since. So a request is pending again
      only if it was answered or lost since, and one is forgotten only if it was
      delivered since. */
  lemma OlderSessionCosts(l: Ledger, calls: seq<Call>)
    requires LedgerOk(l) && MayCallAll(l, calls)
    ensures var m := CalledAll(l, calls);
            multiset(l.session.pending.Values) + (m.delivered - l.delivered)
            == multiset(m.session.pending.Values) + (m.answered - l.answered) + (m.lost - l.lost)
  {
    RunKeeps(l, calls);
    HistoryGrows(l, calls);
    var m := CalledAll(l, calls);
    SpanBalance(l.delivered, l.answered, l.lost, m.delivered, m.answered, m.lost,
                multiset(l.session.pending.Values), multiset(m.session.pending.Values));
  }

  lemma SpanBalance(d: multiset<Request>, a: multiset<Request>, t: multiset<Request>,
                    d1: multiset<Request>, a1: multiset<Request>, t1: multiset<Request>,
                    p: multiset<Request>, p1: multiset<Request>)
    requires d == p + a + t && d1 == p1 + a1 + t1 && d <= d1 && a <= a1 && t <= t1
    ensures p + (d1 - d) == p1 + (a1 - a) + (t1 - t)
  {
  }

  predicate StagesPost(call: Call) {
    call.Responds? || call.Stages?
  }

  /** The rule to store the session before posting: if nothing was staged since it
      was stored, restoring it reopens no answered request and loses no post; at
      most the one post that was pending, and delivered since, is posted again. */
  lemma {:induction false} StoredBeforePosting(l: Ledger, calls: seq<Call>)
    requires LedgerOk(l) && MayCallAll(l, calls)
    requires forall i :: 0 <= i < |calls| ==> !StagesPost(calls[i])
    ensures var m := CalledAll(l, calls);
            && m.answered == l.answered && m.staged == l.staged
            && (m.session.post == l.session.post
                || (m.session.post.None? && l.session.post.Some? && m.done == l.done + [l.session.post.value]))
            && (m.session.post == l.session.post ==> m.done == l.done)
    decreases |calls|
  {
    if calls != [] {
      var n := |calls| - 1;
      ShorterRun(l, calls);
      assert forall i :: 0 <= i < n ==> calls[..n][i] == calls[i];
      StoredBeforePosting(l, calls[..n]);
      RunKeeps(l, calls[..n]);
      CallKeeps(CalledAll(l, calls[..n]), calls[n]);
      assert !StagesPost(calls[n]);
    }
  }

  // ----- a host that runs a session -----

  /** One call of the host on the mutable session. For a restart it stores the
      session and goes on with the restored one. */
  method Perform(session: TonConnectSession, call: Call, ghost l: Ledger)
    returns (next: TonConnectSession, ghost made: Call, granted: bool)
    requires LedgerOk(l) && session.View() == l.session
    modifies session
    ensures next == session || fresh(next)
    ensures MayCall(l, made) && next.View() == Called(l, made).session
    ensures if call.Restarts? then made.Restarts? else made == call
    ensures granted <==> call.Subscribes? && Opens(l)
  {
    next, made, granted := session, call, false;
    match call
    case Ingests(incoming, decodes) =>
      var _ := session.IngestSseChunk(incoming, decodes);
    case Responds(id, prepared) =>
      var _ := session.PrepareResponse(id, prepared);
    case Stages(prepared, network) =>
      var _ := session.StageConnectionEvent(prepared, network);
    case Completes =>
      session.CompletePendingPost();
    case Subscribes =>
      granted := session.BeginEventsSubscription();
    case Restarts(_) =>
      var stored := session.PersistedSession();
      made := Restarts(stored.requests);
      RestoreUndoesPersist(session.pending, stored.requests);
      var restored := RestoreSession(stored);
      next := restored.value;
  }

  /** A host that makes any calls in any order and restarts at will. What its session
      holds is what the ledger of those calls says, so `RunsConserve` is about it. */
  method HostRun(calls: seq<Call>) returns (session: TonConnectSession, ghost run: seq<Call>, streams: nat)
    ensures fresh(session) && |run| == |calls| && MayCallAll(NEW_LEDGER, run)
    ensures forall i :: 0 <= i < |calls| ==> if calls[i].Restarts? then run[i].Restarts? else run[i] == calls[i]
    ensures session.View() == CalledAll(NEW_LEDGER, run).session
    ensures streams == |CalledAll(NEW_LEDGER, run).openings|
  {
    session := new TonConnectSession.FromLink();
    run, streams := [], 0;
    for n := 0 to |calls|
      invariant fresh(session) && |run| == n && MayCallAll(NEW_LEDGER, run)
      invariant forall i :: 0 <= i < n ==> if calls[i].Restarts? then run[i].Restarts? else run[i] == calls[i]
      invariant session.View() == CalledAll(NEW_LEDGER, run).session
      invariant streams == |CalledAll(NEW_LEDGER, run).openings|
    {
      ghost var l := CalledAll(NEW_LEDGER, run);
      RunsConserve(run);
      ghost var made;
      var granted;
      session, made, granted := Perform(session, calls[n], l);
      LongerRun(run, made);
      OpeningsGrow(l, made);
      run := run + [made];
      streams := if granted then streams + 1 else streams;
    }
  }

  lemma LongerRun(calls: seq<Call>, call: Call)
    requires MayCallAll(NEW_LEDGER, calls) && MayCall(CalledAll(NEW_LEDGER, calls), call)
    ensures MayCallAll(NEW_LEDGER, calls + [call])
    ensures CalledAll(NEW_LEDGER, calls + [call]) == Called(CalledAll(NEW_LEDGER, calls), call)
  {
    var longer := calls + [call];
    assert longer[..|calls|] == calls;
    forall i | 0 <= i < |longer| ensures MayCall(CalledAll(NEW_LEDGER, longer[..i]), longer[i]) {
      if i < |calls| {
        assert longer[..i] == calls[..i];
      }
    }
  }

  lemma OpeningsGrow(l: Ledger, call: Call)
    ensures |Called(l, call).openings| == |l.openings| + if call.Subscribes? && Opens(l) then 1 else 0
  {
  }
}
