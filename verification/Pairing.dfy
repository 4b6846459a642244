/** The pairing requests of the server, the nodes they lead to, and the
    credential installed for each node. */
module Pairing {
  import opened Prelude

  /** Hashing is injective: a digest tells its credential apart from every other. */
  datatype Digest = Digest(credential: nat)

  datatype PairingState = Pending | Approved | Rejected | Expired

  /** What the agent says about its machine. */
  datatype Details = Details(machine: nat, hostname: string, kind: string, version: string)

  datatype Request = Request(
    details: Details,
    hash: Digest,
    state: PairingState,
    createdAt: int,
    expiresAt: int,
    decidedAt: Option<int>,
    node: Option<nat>,
    group: nat,
    remark: string)

  datatype Node = Node(details: Details, group: nat, remark: string, createdAt: int)

  datatype Credential = Credential(hash: Digest, createdAt: int)

  type Requests = map<nat, Request>

  datatype Database = Database(requests: Requests, nodes: map<nat, Node>, credentials: map<nat, Credential>)

  const LIFETIME := 600_000

  function NewRequest(details: Details, hash: Digest, now: int): Request {
    Request(details, hash, Pending, now, now + LIFETIME, None, None, 0, "")
  }

  predicate Due(request: Request, now: int) {
    request.state == Pending && request.expiresAt <= now
  }

  function Lapsed(request: Request, now: int): Request {
    if Due(request, now) then request.(state := Expired, decidedAt := Some(now)) else request
  }

  function LapseAll(requests: Requests, now: int): Requests {
    map id | id in requests :: Lapsed(requests[id], now)
  }

  function LapseOne(requests: Requests, id: nat, now: int): Requests {
    if id in requests then requests[id := Lapsed(requests[id], now)] else requests
  }

  function Approval(request: Request, node: nat, group: nat, remark: string, now: int): Request {
    request.(state := Approved, node := Some(node), group := group, remark := remark, decidedAt := Some(now))
  }

  /** Approving decides the request, writes the node of its machine, and installs the credential for that node. */
  ghost predicate ApprovedAs(before: Database, after: Database, id: nat, node: nat, group: nat, remark: string,
                             now: int) {
    && id in before.requests && before.requests[id].state == Pending && before.requests[id].expiresAt > now
    && var request := before.requests[id];
       && after.requests == before.requests[id := Request(request.details, request.hash, Approved, request.createdAt,
                                                          request.expiresAt, Some(now), Some(node), group, remark)]
       && node in after.nodes && after.nodes == before.nodes[node := after.nodes[node]]
       && after.nodes[node].details == request.details && after.nodes[node].group == group
       && after.nodes[node].remark == remark
       && after.credentials == before.credentials[node := Credential(request.hash, now)]
       && (if node in before.nodes
           then
             && before.nodes[node].details.machine == request.details.machine
             && after.nodes[node].createdAt == before.nodes[node].createdAt
           else
             && after.nodes[node].createdAt == now
             && forall n :: n in before.nodes ==> before.nodes[n].details.machine != request.details.machine)
  }

  // ---- The invariant -------------------------------------------------------------

  /** A request is approved or rejected before it expires, and expired only after. */
  predicate RequestOk(request: Request) {
    && (request.state == Pending <==> request.decidedAt.None?)
    && (request.state == Approved <==> request.node.Some?)
    && (request.state == Approved || request.state == Rejected ==> request.decidedAt.value < request.expiresAt)
    && (request.state == Expired ==> request.decidedAt.value >= request.expiresAt)
  }

  ghost predicate RequestsOk(requests: Requests) {
    forall id :: id in requests ==> RequestOk(requests[id])
  }

  ghost predicate NodesOk(nodes: map<nat, Node>) {
    forall m, n :: m in nodes && n in nodes && nodes[m].details.machine == nodes[n].details.machine ==> m == n
  }

  ghost predicate DatabaseOk(db: Database) {
    && RequestsOk(db.requests) && NodesOk(db.nodes)
    && (forall id :: id in db.requests && db.requests[id].node.Some? ==> db.requests[id].node.value in db.nodes)
    && (forall n :: n in db.credentials ==> n in db.nodes)
  }

  /** A decided request is never touched again. */
  predicate RequestLater(before: Request, after: Request) {
    && after.details == before.details && after.hash == before.hash
    && after.createdAt == before.createdAt && after.expiresAt == before.expiresAt
    && (before.state != Pending ==> after == before)
  }

  ghost predicate Later(before: Requests, after: Requests) {
    forall id :: id in before ==> id in after && RequestLater(before[id], after[id])
  }

  lemma RequestsAreLater(requests: Requests)
    ensures Later(requests, requests)
  {
  }

  lemma LaterTwice(a: Requests, b: Requests, c: Requests)
    requires Later(a, b) && Later(b, c)
    ensures Later(a, c)
  {
    forall id | id in a ensures id in c && RequestLater(a[id], c[id]) {
      assert id in b && RequestLater(a[id], b[id]);
    }
  }

  lemma NewIsLater(requests: Requests, id: nat, request: Request)
    requires id !in requests
    ensures Later(requests, requests[id := request])
  {
  }

  lemma OneRequest(db: Database, id: nat, request: Request)
    requires DatabaseOk(db) && RequestOk(request) && (id in db.requests ==> RequestLater(db.requests[id], request))
    requires request.node.Some? ==> request.node.value in db.nodes
    ensures DatabaseOk(db.(requests := db.requests[id := request])) && Later(db.requests, db.requests[id := request])
  {
  }

  lemma LapsedOk(request: Request, now: int)
    requires RequestOk(request)
    ensures RequestOk(Lapsed(request, now)) && RequestLater(request, Lapsed(request, now))
    ensures Lapsed(request, now).node == request.node
  {
  }

  lemma AllLapsed(db: Database, now: int)
    requires DatabaseOk(db)
    ensures DatabaseOk(db.(requests := LapseAll(db.requests, now))) && Later(db.requests, LapseAll(db.requests, now))
  {
    hide RequestOk, RequestLater, Lapsed;
    forall id | id in db.requests {
      LapsedOk(db.requests[id], now);
    }
  }

  lemma ApprovalOk(before: Database, after: Database, id: nat, node: nat, group: nat, remark: string, now: int)
    requires DatabaseOk(before) && ApprovedAs(before, after, id, node, group, remark, now)
    ensures DatabaseOk(after) && Later(before.requests, after.requests)
  {
  }

  /** Each request once, by its creation. */
  ghost predicate Listed(requests: Requests, list: seq<nat>) {
    && (forall id :: id in list ==> id in requests)
    && (forall i, j :: 0 <= i < j < |list| ==>
          list[i] != list[j] && requests[list[i]].createdAt <= requests[list[j]].createdAt)
  }

  lemma {:induction false} OldestExists(requests: Requests, ids: set<nat>) returns (oldest: nat)
    requires ids != {} && forall id :: id in ids ==> id in requests
    ensures oldest in ids && forall id :: id in ids ==> requests[oldest].createdAt <= requests[id].createdAt
    decreases ids
  {
    var id :| id in ids;
    if ids == {id} {
      oldest := id;
    } else {
      var rest := OldestExists(requests, ids - {id});
      oldest := if requests[id].createdAt <= requests[rest].createdAt then id else rest;
      assert forall other :: other in ids ==> other == id || other in ids - {id};
    }
  }

  /** A pending request whose time is up. */
  predicate Expires(request: Request, now: int) {
    request.state == Pending && request.expiresAt <= now
  }

  function Expiry(request: Request, now: int): Request {
    request.(state := Expired, decidedAt := Some(now))
  }

  /** All pending requests whose time is up have expired, and no other one has changed. */
  ghost predicate Swept(before: Requests, after: Requests, now: int) {
    && after.Keys == before.Keys
    && forall id :: id in before ==>
         after[id] == if Expires(before[id], now) then Expiry(before[id], now) else before[id]
  }

  // ---- The store --------------------------------------------------------------------

  datatype Error = NotFound | Unauthorized | Conflict | TooLate | Internal

  datatype Poll = Poll(state: PairingState, node: Option<nat>, expiresAt: int)

  class Store {
    var db: Database

    constructor ()
      ensures db == Database(map[], map[], map[]) && DatabaseOk(db)
    {
      db := Database(map[], map[], map[]);
    }

    /** A statement or a commit that reports an error may have taken effect. */
    method Commit(next: Database) returns (ok: bool)
      modifies this
      ensures ok ==> db == next
      ensures db == old(db) || db == next
    {
      ok := *;
      var applied: bool := *;
      if ok || applied {
        db := next;
      }
    }

    /** The state is the caller's, who passes pending. */
    method CreatePairingRequest(id: nat, details: Details, hash: Digest, state: PairingState, now: int)
      returns (r: Result<Request, Error>)
      requires DatabaseOk(db)
      modifies this
      ensures Later(old(db).requests, db.requests) && (state == Pending ==> DatabaseOk(db))
      ensures r.Ok? ==>
                && id !in old(db).requests && db == old(db).(requests := old(db).requests[id := r.value])
                && r.value == NewRequest(details, hash, now).(state := state)
                && r.value == Request(details, hash, state, now, now + 10 * 60 * 1000, None, None, 0, "")
      ensures r.Err? ==>
                && r.error == Internal
                && (|| db == old(db)
                    || (id !in old(db).requests
                        && db.requests == old(db).requests[id := NewRequest(details, hash, now).(state := state)]))
    {
      hide DatabaseOk, Later;
      RequestsAreLater(db.requests);
      if id in db.requests {
        return Err(Internal);
      }
      var request := NewRequest(details, hash, now).(state := state);
      if state == Pending {
        OneRequest(db, id, request);
      }
      NewIsLater(db.requests, id, request);
      var ok := Commit(db.(requests := db.requests[id := request]));
      r := if ok then Ok(request) else Err(Internal);
    }

    /** What an agent polls: the request must be its own. */
    method GetPairingRequest(id: nat, hash: Digest, now: int) returns (r: Result<Poll, Error>)
      requires DatabaseOk(db)
      modifies this
      ensures DatabaseOk(db) && Later(old(db).requests, db.requests)
      ensures r.Ok? ==>
                && id in db.requests && db.requests[id].hash == hash
                && r.value == Poll(db.requests[id].state, db.requests[id].node, db.requests[id].expiresAt)
                && (r.value.state == Approved <==> r.value.node.Some?)
                && (r.value.node.Some? ==> r.value.node.value in db.nodes)
                && !Due(db.requests[id], now)
      ensures r == Err(Unauthorized) ==> id !in db.requests || db.requests[id].hash != hash
      ensures r.Err? ==> r.error == Internal || r.error == Unauthorized
    {
      hide DatabaseOk, Later, RequestLater;
      RequestsAreLater(db.requests);
      if id in db.requests {
        var ok := ExpireOne(id, now);
        if !ok {
          return Err(Internal);
        }
      }
      ghost var settled := db.requests;
      OtherDecisions();
      LaterTwice(old(db).requests, settled, db.requests);
      var unreadable: bool := *;
      if unreadable {
        return Err(Internal);
      }
      if id !in db.requests || db.requests[id].hash != hash {
        return Err(Unauthorized);
      }
      RequestIsOk(db, id);
      StaysSettled(settled, db.requests, id, now);
      r := Ok(Poll(db.requests[id].state, db.requests[id].node, db.requests[id].expiresAt));
    }

    /** The UPDATE of a poll: the request expires exactly if it is pending and its time is up. */
    method ExpireOne(id: nat, now: int) returns (ok: bool)
      requires DatabaseOk(db) && id in db.requests
      modifies this
      ensures DatabaseOk(db) && Later(old(db).requests, db.requests)
      ensures db == old(db) || Expires(old(db).requests[id], now)
      ensures db == old(db) ||
              db == old(db).(requests := old(db).requests[id := Expiry(old(db).requests[id], now)])
      ensures ok && Expires(old(db).requests[id], now) ==>
                db == old(db).(requests := old(db).requests[id := Expiry(old(db).requests[id], now)])
      ensures ok ==> id in db.requests && !Due(db.requests[id], now)
    {
      hide DatabaseOk, Later, RequestLater;
      RequestsAreLater(db.requests);
      RequestIsOk(db, id);
      LapsedOk(db.requests[id], now);
      OneRequest(db, id, Lapsed(db.requests[id], now));
      assert !Due(db.requests[id], now) ==> LapseOne(db.requests, id, now) == db.requests;
      ok := Commit(db.(requests := LapseOne(db.requests, id, now)));
    }

    /** The sweep of pending requests, before they are listed. */
    method ExpireAll(now: int) returns (ok: bool)
      requires DatabaseOk(db)
      modifies this
      ensures DatabaseOk(db) && Later(old(db).requests, db.requests)
      ensures db.nodes == old(db).nodes && db.credentials == old(db).credentials
      ensures db == old(db) || Swept(old(db).requests, db.requests, now)
      ensures ok ==> Swept(old(db).requests, db.requests, now)
    {
      hide DatabaseOk, Later;
      RequestsAreLater(db.requests);
      AllLapsed(db, now);
      ok := Commit(db.(requests := LapseAll(db.requests, now)));
    }

    /** Decisions of other requests between two statements of this one. */
    method OtherDecisions()
      requires DatabaseOk(db)
      modifies this
      ensures DatabaseOk(db) && Later(old(db).requests, db.requests)
      ensures forall id :: id in db.requests ==> id in old(db).requests
    {
      hide DatabaseOk, Later, ApprovedAs;
      RequestsAreLater(db.requests);
      var n: nat := *;
      while n > 0
        invariant DatabaseOk(db) && Later(old(db).requests, db.requests)
        invariant forall id :: id in db.requests ==> id in old(db).requests
      {
        var id: nat, group: nat, remark: string, newNode: nat, now: int := *, *, *, *, *;
        var kind: nat := *;
        ghost var before := db.requests;
        RequestsAreLater(before);
        if kind == 0 {
          var r := ApprovePairingRequest(id, group, remark, newNode, now);
        } else if kind == 1 {
          var r := Decline(id, now);
        } else if kind == 2 {
          var r := ExpireAll(now);
        } else if id in db.requests {
          var r := ExpireOne(id, now);
        }
        LaterTwice(old(db).requests, before, db.requests);
        n := n - 1;
      }
    }

    /** The requests that wait for a decision, oldest first. */
    method ListPendingPairingRequests(now: int) returns (r: Result<seq<nat>, Error>)
      requires DatabaseOk(db)
      modifies this
      ensures DatabaseOk(db) && Later(old(db).requests, db.requests)
      ensures r.Ok? ==> forall id :: id in r.value <==>
                id in db.requests && db.requests[id].state == Pending && db.requests[id].expiresAt > now
      ensures r.Ok? ==> forall id :: id in r.value ==> id in old(db).requests && old(db).requests[id].state == Pending
      ensures r.Ok? ==> Listed(db.requests, r.value)
      // no request is left pending past its time
      ensures r.Ok? ==> forall id :: id in db.requests ==> !Due(db.requests[id], now)
      ensures r.Err? ==> r.error == Internal
    {
      hide DatabaseOk, Later, Listed;
      var ok := ExpireAll(now);
      if !ok {
        return Err(Internal);
      }
      ghost var swept := db.requests;
      OtherDecisions();
      LaterTwice(old(db).requests, swept, db.requests);
      var unreadable: bool := *;
      if unreadable {
        return Err(Internal);
      }
      forall id | id in db.requests ensures !Due(db.requests[id], now) {
        StaysSettled(swept, db.requests, id, now);
      }
      WasPending(old(db).requests, db.requests);
      var pending := set id | id in db.requests && db.requests[id].state == Pending && db.requests[id].expiresAt > now;
      var list := ByCreation(db.requests, pending);
      r := Ok(list);
    }

    /** ORDER BY created_at */
    static method ByCreation(requests: Requests, ids: set<nat>) returns (r: seq<nat>)
      requires forall id :: id in ids ==> id in requests
      ensures Listed(requests, r) && forall id :: id in r <==> id in ids
    {
      r := [];
      var rest := ids;
      while rest != {}
        invariant rest <= ids && Listed(requests, r) && forall id :: id in r <==> id in ids && id !in rest
        invariant forall i, id :: 0 <= i < |r| && id in rest ==> requests[r[i]].createdAt <= requests[id].createdAt
        decreases rest
      {
        ghost var witnessed := OldestExists(requests, rest);
        var oldest :|
          oldest in rest && forall id :: id in rest ==> requests[oldest].createdAt <= requests[id].createdAt;
        ghost var before := r;
        r := r + [oldest];
        rest := rest - {oldest};
        assert forall id :: id in r <==> id in before || id == oldest;
      }
    }

    /** Exactly a pending request that has not expired is approved; the expiry it may write is rolled back. */
    method ApprovePairingRequest(id: nat, group: nat, remark: string, newNode: nat, now: int)
      returns (r: Result<nat, Error>)
      requires DatabaseOk(db)
      modifies this
      ensures DatabaseOk(db) && Later(old(db).requests, db.requests)
      ensures db.requests.Keys == old(db).requests.Keys
      ensures r.Ok? ==> ApprovedAs(old(db), db, id, r.value, group, remark, now)
      ensures r.Err? && r.error != Internal ==> db == old(db)
      ensures r == Err(NotFound) ==> id !in old(db).requests
      ensures r == Err(Conflict) ==>
                && id in old(db).requests
                && (old(db).requests[id].state == Approved || old(db).requests[id].state == Rejected)
      ensures r == Err(TooLate) ==>
                id in old(db).requests && (old(db).requests[id].state == Expired || Due(old(db).requests[id], now))
    {
      hide DatabaseOk, Later;
      RequestsAreLater(db.requests);
      if id !in db.requests {
        return Err(NotFound);
      }
      var request := db.requests[id];
      if request.state != Pending {
        return if request.state == Expired then Err(TooLate) else Err(Conflict);
      }
      if request.expiresAt <= now {
        return Err(TooLate);
      }
      var node, createdAt := newNode, now;
      var known := set n | n in db.nodes && db.nodes[n].details.machine == request.details.machine;
      if known != {} {
        node :| node in known;
        createdAt := db.nodes[node].createdAt;
      } else if newNode in db.nodes {
        return Err(Internal);    // the primary key refuses the new node
      }
      assert known == {} ==>
        forall n :: n in db.nodes && db.nodes[n].details.machine == request.details.machine ==> n in known;
      var next := Database(
        db.requests[id := Approval(request, node, group, remark, now)],
        db.nodes[node := Node(request.details, group, remark, createdAt)],
        db.credentials[node := Credential(request.hash, now)]);
      assert ApprovedAs(db, next, id, node, group, remark, now);
      ApprovalOk(db, next, id, node, group, remark, now);
      var ok := Commit(next);
      r := if ok then Ok(node) else Err(Internal);
    }

    /** The UPDATE of a rejection. */
    method Decline(id: nat, now: int) returns (r: Result<bool, Error>)
      requires DatabaseOk(db)
      modifies this
      ensures DatabaseOk(db) && Later(old(db).requests, db.requests)
      ensures db.requests.Keys == old(db).requests.Keys
      ensures r.Ok? ==>
                r.value == (id in old(db).requests && old(db).requests[id].state == Pending
                            && old(db).requests[id].expiresAt > now)
      ensures r.Ok? && r.value ==>
                var rejected := old(db).requests[id].(state := Rejected, decidedAt := Some(now));
                db == old(db).(requests := old(db).requests[id := rejected])
      ensures r.Ok? && !r.value ==> db == old(db)
      ensures r.Err? ==> r.error == Internal
    {
      hide DatabaseOk, Later;
      RequestsAreLater(db.requests);
      if id !in db.requests || db.requests[id].state != Pending || db.requests[id].expiresAt <= now {
        return Ok(false);
      }
      RequestIsOk(db, id);
      var rejected := db.requests[id].(state := Rejected, decidedAt := Some(now));
      OneRequest(db, id, rejected);
      var ok := Commit(db.(requests := db.requests[id := rejected]));
      r := if ok then Ok(true) else Err(Internal);
    }

    method RejectPairingRequest(id: nat, now: int) returns (r: Result<(), Error>)
      requires DatabaseOk(db)
      modifies this
      ensures DatabaseOk(db) && Later(old(db).requests, db.requests)
      ensures r.Ok? ==>
                && id in old(db).requests && old(db).requests[id].state == Pending
                && now < old(db).requests[id].expiresAt
                && var rejected := old(db).requests[id].(state := Rejected, decidedAt := Some(now));
                   db == old(db).(requests := old(db).requests[id := rejected])
      ensures r == Err(NotFound) ==> id !in old(db).requests
      ensures r == Err(Conflict) ==>
                id in db.requests && now < db.requests[id].expiresAt && db.requests[id].state != Expired
      ensures r == Err(TooLate) ==>
                id in db.requests && (db.requests[id].state == Expired || db.requests[id].expiresAt <= now)
    {
      hide DatabaseOk, Later;
      var declined := Decline(id, now);
      if declined.Err? {
        return Err(Internal);
      }
      if declined.value {
        return Ok(());
      }
      OtherDecisions();
      var unreadable: bool := *;
      if unreadable {
        return Err(Internal);
      }
      if id !in db.requests {
        if id in old(db).requests {
          LaterHas(old(db).requests, db.requests, id);
        }
        return Err(NotFound);
      }
      r := if db.requests[id].state == Expired || db.requests[id].expiresAt <= now then Err(TooLate) else Err(Conflict);
    }
  }

  lemma RequestIsOk(db: Database, id: nat)
    requires DatabaseOk(db) && id in db.requests
    ensures RequestOk(db.requests[id]) && (db.requests[id].node.Some? ==> db.requests[id].node.value in db.nodes)
  {
  }

  lemma LaterHas(before: Requests, after: Requests, id: nat)
    requires Later(before, after) && id in before
    ensures id in after
  {
  }

  lemma WasPending(before: Requests, after: Requests)
    requires Later(before, after)
    ensures forall id :: id in before && id in after && after[id].state == Pending ==> before[id].state == Pending
  {
  }

  lemma StaysSettled(before: Requests, after: Requests, id: nat, now: int)
    requires Later(before, after) && id in before && !Due(before[id], now)
    ensures id in after && !Due(after[id], now)
  {
  }

  /** A request leaves pending at most once: whatever happens later, its decision stands, and if it
      was approved or rejected, that was before it expired. */
  lemma DecidedOnce(before: Requests, after: Requests, id: nat)
    requires RequestsOk(before) && Later(before, after) && id in before && before[id].state != Pending
    ensures id in after && after[id] == before[id]
    ensures before[id].decidedAt.Some?
    ensures before[id].state == Approved || before[id].state == Rejected ==>
              before[id].decidedAt.value < before[id].expiresAt
    ensures before[id].state == Expired ==> before[id].expiresAt <= before[id].decidedAt.value
  {
  }
}
