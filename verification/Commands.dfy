/** The operations of the server on the command table. A transaction is one
    atomic step whose commit may report an error although it took effect;
    between the two statements of CompleteCommand, which share no transaction,
    any other operations may run. */
module Commands {
  import opened Prelude
  import opened CommandTable
  import opened Utf8

  datatype Claim = Claim(execution: nat, task: nat, command: Command, expires: int)

  datatype Error = Invalid | Conflict | NotFound | Unauthorized | Internal

  /** The claim handed to the agent describes the leased row. */
  ghost predicate ClaimIs(table: Table, chosen: Option<nat>, claim: Option<Claim>) {
    match claim
    case None => chosen == None
    case Some(c) =>
      && chosen == Some(c.execution) && c.execution in table.rows
      && c.task == table.rows[c.execution].task && c.task in table.tasks
      && c.command == table.tasks[c.task].command
      && table.rows[c.execution].expires == Some(c.expires)
  }

  const MAX_OUTPUT: nat := 262144
  const MAX_ERROR: nat := 512

  /** No empty hash and no zero time. */
  predicate Presented(credential: Hash, hash: Hash, now: int) {
    credential != 0 && hash != 0 && now != 0
  }

  /** validCommandCompletion, of the store. */
  predicate ValidCompletion(c: Completion) {
    && c.execution != 0 && c.status.Terminal() && c.duration >= 0
    && Valid(c.output) && |c.output| <= MAX_OUTPUT
    && Valid(c.error) && |c.error| <= MAX_ERROR
  }

  /** validCommandCompletionPayload, of the HTTP interface; a token of 0 stands for the empty string. */
  predicate ValidPayload(c: Completion, token: nat) {
    && c.execution != 0 && token != 0 && c.status.Terminal()
    && c.duration >= 0 && Valid(c.output)
    && |c.output| <= MAX_OUTPUT && Valid(c.error)
    && |c.error| <= MAX_ERROR
  }

  class Store {
    var table: Table
    var credentials: map<Hash, nat>    // live credentials of windows nodes
    var windows: set<nat>              // windows nodes

    constructor ()
      ensures table == Table(map[], map[]) && TableOk(table)
    {
      table := Table(map[], map[]);
      credentials, windows := map[], {};
    }

    method Commit(next: Table) returns (ok: bool)
      modifies this`table
      ensures ok ==> table == next
      ensures table == old(table) || table == next
    {
      ok := *;
      var applied: bool := *;
      if ok || applied {
        table := next;
      }
    }

    /** SELECT ... ORDER BY ... FOR UPDATE SKIP LOCKED LIMIT 1 */
    static method NextWaiting(table: Table, node: nat, locked: set<nat>) returns (r: Option<nat>)
      ensures r.Some? ==> Least(table, node, locked, r.value)
      ensures r.Some? ==>
                r.value in table.rows && table.rows[r.value].status == Queued && table.rows[r.value].task in table.tasks
      ensures r.None? ==> forall j :: !WaitingFor(table, node, locked, j)
    {
      var waiting := set id | id in table.rows && WaitingFor(table, node, locked, id);
      assert forall j :: WaitingFor(table, node, locked, j) ==> j in waiting;
      if waiting == {} {
        return None;
      }
      ghost var least := LeastExists(table, node, locked, waiting);
      var id :| id in waiting && forall j :: j in waiting ==> Precedes(table, id, j);
      r := Some(id);
    }

    /** The transaction of a claim, for the node that owns the credential. */
    method ClaimFor(node: nat, hash: Hash, now: int, duration: int, locked: set<nat>)
      returns (r: Result<Option<Claim>, Error>, ghost chosen: Option<nat>)
      requires TableOk(table)
      modifies this`table
      ensures TableOk(table) && Later(old(table).rows, table.rows)
      ensures r.Err? ==>
                && r.error == Internal
                && (table == old(table) || Claimed(old(table), table, node, hash, now, duration, locked, chosen))
      ensures r.Ok? ==> Claimed(old(table), table, node, hash, now, duration, locked, chosen)
      ensures r.Ok? ==> ClaimIs(table, chosen, r.value)
    {
      hide TableOk, Later, RowOk, Least, Settle, RowLater, Claimed;
      chosen := None;
      RowsAreLater(table.rows);
      var settled := Settle(table, node, now);
      SettledOk(table, node, now);
      var next := NextWaiting(settled, node, locked);
      if next.None? {
        StatementsClaim(table, settled, node, hash, now, duration, locked, None);
        var ok := Commit(settled);
        r := if ok then Ok(None) else Err(Internal);
        return;
      }
      var id := next.value;
      chosen := next;
      var leased := Lease(settled, id, hash, now + duration);
      TableHasRow(settled, id);
      RowGranted(settled.rows[id], hash, now + duration);
      RowReplaced(settled, id, Granted(settled.rows[id], hash, now + duration));
      LaterTwice(table.rows, settled.rows, leased.rows);
      StatementsClaim(table, leased, node, hash, now, duration, locked, chosen);
      var task := settled.rows[id].task;
      var ok := Commit(leased);
      r := if ok then Ok(Some(Claim(id, task, settled.tasks[task].command, now + duration))) else Err(Internal);
    }

    /** Claim the next command of the node that owns the credential. */
    method ClaimCommand(credential: Hash, hash: Hash, now: int, duration: int, locked: set<nat>)
      returns (r: Result<Option<Claim>, Error>, ghost chosen: Option<nat>)
      requires TableOk(table)
      modifies this`table
      ensures TableOk(table) && Later(old(table).rows, table.rows)
      ensures r == Err(Conflict) <==> !Presented(credential, hash, now) || duration <= 0
      ensures r == Err(Unauthorized) ==> credential !in credentials
      ensures (r.Err? && r.error != Internal) || credential !in credentials ==> r.Err? && table == old(table)
      ensures r.Err? && credential in credentials ==>
                table == old(table)
                  || Claimed(old(table), table, credentials[credential], hash, now, duration, locked, chosen)
      ensures r.Ok? ==>
                && credential in credentials
                && Claimed(old(table), table, credentials[credential], hash, now, duration, locked, chosen)
      ensures r.Ok? ==> ClaimIs(table, chosen, r.value) && NoneOverdue(table.rows, credentials[credential], now)
    {
      hide TableOk, Later, Claimed, ClaimIs, NoneOverdue;
      chosen := None;
      RowsAreLater(table.rows);
      if !Presented(credential, hash, now) || duration <= 0 {
        return Err(Conflict), None;
      }
      var reachable: bool := *;
      if !reachable {
        return Err(Internal), None;
      }
      if credential !in credentials {
        return Err(Unauthorized), None;
      }
      r, chosen := ClaimFor(credentials[credential], hash, now, duration, locked);
      if r.Ok? {
        ClaimLeavesNoneOverdue(old(table), table, credentials[credential], hash, now, duration, locked, chosen);
      }
    }

    /** A lease is accepted once its row is running; the same lease may be accepted again. */
    method StartCommand(credential: Hash, id: nat, hash: Hash, now: int) returns (r: Result<(), Error>)
      requires TableOk(table)
      modifies this`table
      ensures TableOk(table) && Later(old(table).rows, table.rows) && table.tasks == old(table).tasks
      ensures !Presented(credential, hash, now) || id == 0 ==> r == Err(Conflict)
      ensures r == Err(Unauthorized) ==> credential !in credentials
      ensures r == Err(Conflict) && Presented(credential, hash, now) && id != 0 ==>
                credential in credentials && !LeaseLive(old(table).rows, id, credentials[credential], hash, now)
      ensures r.Err? && r.error != Internal ==> table == old(table)
      ensures r.Ok? ==>
                && credential in credentials
                && StartedBy(old(table).rows, table.rows, id, credentials[credential], hash, now)
      ensures r.Err? ==>
                || table == old(table)
                || (credential in credentials
                    && StartedBy(old(table).rows, table.rows, id, credentials[credential], hash, now))
    {
      hide TableOk, Later, RowOk, RowLater;
      RowsAreLater(table.rows);
      if !Presented(credential, hash, now) || id == 0 {
        return Err(Conflict);
      }
      var reachable: bool := *;
      if !reachable {
        return Err(Internal);
      }
      if credential !in credentials {
        return Err(Unauthorized);
      }
      if !LeaseLive(table.rows, id, credentials[credential], hash, now) {
        return Err(Conflict);
      }
      TableHasRow(table, id);
      RowStarted(table.rows[id], now);
      RowReplaced(table, id, Started(table.rows[id], now));
      var ok := Commit(table.(rows := table.rows[id := Started(table.rows[id], now)]));
      r := if ok then Ok(()) else Err(Internal);
    }

    /** Operations of other requests that run between two statements of this one. */
    method OtherStatements()
      requires TableOk(table)
      modifies this`table
      ensures TableOk(table) && Later(old(table).rows, table.rows)
    {
      hide TableOk, Later, Claimed, ClaimIs, StartedBy, LeaseLive, CompletedBy, NoneOverdue, Inserted, Failures,
        Distinct;
      RowsAreLater(table.rows);
      var n: nat := *;
      while n > 0
        invariant TableOk(table) && Later(old(table).rows, table.rows)
      {
        var credential: Hash, hash: Hash, id: nat, now: int, duration: int, locked: set<nat> := *, *, *, *, *, *;
        ghost var before := table.rows;
        RowsAreLater(before);
        var kind: nat := *;
        if kind == 0 {
          ghost var chosen;
          var r;
          r, chosen := ClaimCommand(credential, hash, now, duration, locked);
        } else if kind == 1 {
          var r := StartCommand(credential, id, hash, now);
        } else if kind == 2 {
          var command: Command, valid: bool, nodes: seq<nat>, ids: seq<nat>, user: nat := *, *, *, *, *;
          if |ids| == |nodes| {
            var r := CreateCommand(id, user, now, command, valid, nodes, ids);
          }
        } else if kind == 3 {
          var source: nat, ids: seq<nat>, user: nat := *, *, *;
          if |ids| == |Failures(table, source)| {
            var r := RetryCommand(id, user, now, source, ids);
          }
        } else {
          var c: Completion := *;
          if c.status.Terminal() && credential in credentials {
            var r := RecordCompletion(credentials[credential], hash, c, now);
          }
        }
        LaterTwice(old(table).rows, before, table.rows);
        n := n - 1;
      }
    }

    /** The UPDATE of a report: it stores the outcome if the lease is live. */
    method RecordCompletion(node: nat, hash: Hash, c: Completion, now: int) returns (r: Result<bool, Error>)
      requires TableOk(table) && c.status.Terminal()
      modifies this`table
      ensures TableOk(table) && Later(old(table).rows, table.rows)
      ensures r.Err? ==> table == old(table) || CompletedBy(old(table).rows, table.rows, node, hash, c, now)
      ensures r.Err? ==> r.error == Internal
      ensures r.Ok? ==> r.value == LeaseLive(old(table).rows, c.execution, node, hash, now)
      ensures r.Ok? && r.value ==>
                CompletedBy(old(table).rows, table.rows, node, hash, c, now) && table.tasks == old(table).tasks
      ensures r.Ok? && !r.value ==> table == old(table)
    {
      hide TableOk, Later, RowOk, RowLater, SameCompletion;
      RowsAreLater(table.rows);
      if !LeaseLive(table.rows, c.execution, node, hash, now) {
        return Ok(false);
      }
      TableHasRow(table, c.execution);
      RowCompleted(table.rows[c.execution], c, now);
      RowReplaced(table, c.execution, Completed(table.rows[c.execution], c, now));
      var ok := Commit(table.(rows := table.rows[c.execution := Completed(table.rows[c.execution], c, now)]));
      r := if ok then Ok(true) else Err(Internal);
    }

    /** The first report of an outcome is stored; a repetition of it is accepted, anything else is not.
        An accepted report is, from then on, what the table holds. */
    method CompleteCommand(credential: Hash, hash: Hash, c: Completion, now: int) returns (r: Result<(), Error>)
      requires TableOk(table)
      modifies this`table
      ensures TableOk(table) && Later(old(table).rows, table.rows)
      ensures !ValidCompletion(c) || !Presented(credential, hash, now) ==> r == Err(Conflict) && table == old(table)
      ensures r == Err(Unauthorized) ==> credential !in credentials
      ensures credential !in credentials ==> r.Err? && table == old(table)
      ensures r.Ok? ==> credential in credentials && Confirmed(table.rows, credentials[credential], hash, c)
      ensures r.Ok? ==>
                && c.execution != 0 && c.status in {Succeeded, Failed, TimedOut} && c.duration >= 0
                && Valid(c.output) && |c.output| <= 262_144 && Valid(c.error) && |c.error| <= 512
      ensures ValidCompletion(c) && Presented(credential, hash, now) && credential in credentials ==>
                var node := credentials[credential];
                && (LeaseLive(old(table).rows, c.execution, node, hash, now) ==>
                      || r == Err(Internal)
                      || (r.Ok? && CompletedBy(old(table).rows, table.rows, node, hash, c, now)))
                && (c.execution in old(table).rows && old(table).rows[c.execution].status.Terminal() ==>
                      || r == Err(Internal)
                      || r == if Confirmed(old(table).rows, node, hash, c) then Ok(()) else Err(Conflict))
    {
      hide TableOk, Later, Valid, RowOk, RowLater, SameCompletion;
      RowsAreLater(table.rows);
      if !ValidCompletion(c) || !Presented(credential, hash, now) {
        return Err(Conflict);
      }
      var reachable: bool := *;
      if !reachable {
        return Err(Internal);
      }
      if credential !in credentials {
        return Err(Unauthorized);
      }
      var node := credentials[credential];
      var recorded := RecordCompletion(node, hash, c, now);
      if recorded.Err? {
        return Err(Internal);
      }
      if recorded.value {
        CompletionHolds(old(table).rows, table.rows, node, hash, c, now);
        return Ok(());
      }
      OtherStatements();
      var unreadable: bool := *;
      if unreadable {
        return Err(Internal);
      }
      if c.execution in old(table).rows {
        FinishedStays(old(table).rows, table.rows, c.execution);
      }
      r := if Confirmed(table.rows, node, hash, c) then Ok(()) else Err(Conflict);
    }

    // ---- New tasks ----------------------------------------------------------

    /** hasDuplicateStrings: an empty id counts as a duplicate. */
    static method HasDuplicates(items: seq<nat>) returns (r: bool)
      ensures r <==> !Distinct(items)
    {
      var seen: set<nat> := {};
      for i := 0 to |items|
        invariant seen == SetOf(items[..i]) && Distinct(items[..i])
      {
        if items[i] == 0 || items[i] in seen {
          assert items[i] == 0 || exists k :: 0 <= k < i && items[k] == items[i];
          return true;
        }
        seen := seen + {items[i]};
        assert items[..i + 1] == items[..i] + [items[i]];
      }
      assert items[..|items|] == items;
      r := false;
    }

    method CreateCommand(
      id: nat, createdBy: nat, createdAt: int, command: Command, valid: bool, nodes: seq<nat>, ids: seq<nat>)
      returns (r: Result<(), Error>)
      requires TableOk(table) && |ids| == |nodes|
      modifies this`table
      ensures TableOk(table) && Later(old(table).rows, table.rows)
      ensures r == Err(Invalid) <==> !valid
      ensures r == Err(Conflict) <==>
        valid && !(id != 0 && createdBy != 0 && createdAt != 0 && nodes != [] && Distinct(nodes))
      ensures r == Err(NotFound) ==> !(SetOf(nodes) <= windows)
      ensures r != Err(Unauthorized) && (!(SetOf(nodes) <= windows) ==> r.Err? && table == old(table))
      ensures r.Err? && r.error != Internal ==> table == old(table)
      ensures r.Err? ==>
                table == old(table)
                  || Inserted(old(table), table, id, TaskRow(command, createdBy, None, createdAt), SetOf(nodes))
      ensures r.Ok? ==>
                && Distinct(nodes) && SetOf(nodes) <= windows
                && Inserted(old(table), table, id, TaskRow(command, createdBy, None, createdAt), SetOf(nodes))
    {
      hide TableOk, Later, Distinct, Inserted;
      RowsAreLater(table.rows);
      var repeated := HasDuplicates(nodes);
      if !valid {
        return Err(Invalid);
      }
      if id == 0 || createdBy == 0 || createdAt == 0 || nodes == [] || repeated {
        return Err(Conflict);
      }
      var reachable: bool := *;
      if !reachable {
        return Err(Internal);
      }
      if !(SetOf(nodes) <= windows) {
        return Err(NotFound);
      }
      r := Insert(id, TaskRow(command, createdBy, None, createdAt), nodes, ids);
    }

    /** insertCommand: one task row and one queued execution per node, in one transaction. */
    method Insert(id: nat, task: TaskRow, nodes: seq<nat>, ids: seq<nat>) returns (r: Result<(), Error>)
      requires TableOk(table) && |ids| == |nodes| && Distinct(nodes)
      modifies this`table
      ensures TableOk(table) && Later(old(table).rows, table.rows)
      ensures r.Ok? ==> Inserted(old(table), table, id, task, SetOf(nodes))
      ensures r.Err? ==>
                r.error == Internal && (table == old(table) || Inserted(old(table), table, id, task, SetOf(nodes)))
    {
      hide TableOk, Later, Distinct, RowsInserted, Placed, RowsOk, SetOf;
      RowsAreLater(table.rows);
      // the primary key refuses an id that is taken
      if id in table.tasks {
        return Err(Internal);
      }
      var rows: Rows := table.rows;
      TableIsPlaced(table);
      NoneInserted(table, id);
      SetOfNothing(nodes[..0]);
      for i := 0 to |nodes|
        invariant table == old(table) && RowsInserted(table.rows, rows, id, SetOf(nodes[..i]))
        invariant 0 !in SetOf(nodes[..i])
      {
        if ids[i] in rows {
          return Err(Internal);
        }
        Appended(nodes, i);
        OneInserted(table.rows, rows, id, SetOf(nodes[..i]), ids[i], nodes[i]);
        rows := rows[ids[i] := NewRow(id, nodes[i])];
      }
      assert nodes[..|nodes|] == nodes;
      var next := Table(table.tasks[id := task], rows);
      InsertedOk(table, next, id, task, SetOf(nodes));
      var ok := Commit(next);
      r := if ok then Ok(()) else Err(Internal);
    }

    /** A retry runs the stored command again on exactly the nodes where it failed or timed out. */
    method RetryCommand(id: nat, createdBy: nat, createdAt: int, source: nat, ids: seq<nat>)
      returns (r: Result<(), Error>)
      requires TableOk(table) && |ids| == |Failures(table, source)|
      modifies this`table
      ensures TableOk(table) && Later(old(table).rows, table.rows)
      ensures r.Err? && r.error != Internal ==> table == old(table)
      ensures r.Ok? || table != old(table) ==>
                && source in old(table).tasks && Failures(old(table), source) != {}
                && Inserted(old(table), table, id,
                            TaskRow(old(table).tasks[source].command, createdBy, Some(source), createdAt),
                            Failures(old(table), source))
      ensures id == 0 || createdBy == 0 || createdAt == 0 || source == 0 ==> r == Err(Conflict)
      ensures r == Err(NotFound) ==> source !in old(table).tasks
      ensures r == Err(Conflict) && source !in old(table).tasks ==>
                id == 0 || createdBy == 0 || createdAt == 0 || source == 0
      ensures r == Err(Conflict) ==>
                id == 0 || createdBy == 0 || createdAt == 0 || source == 0 || Failures(old(table), source) == {}
      ensures Failures(old(table), source) == {} ==> r.Err? && table == old(table)
      ensures r.Err? ==> r.error in {Conflict, NotFound, Internal}
    {
      hide TableOk, Later, Distinct, Inserted, Failures;
      RowsAreLater(table.rows);
      if id == 0 || createdBy == 0 || createdAt == 0 || source == 0 {
        return Err(Conflict);
      }
      var reachable: bool := *;
      if !reachable {
        return Err(Internal);
      }
      if source !in table.tasks {
        return Err(NotFound);
      }
      TableIsPlaced(table);
      FailuresAreNodes(table, source);
      var nodes := Sorted(Failures(table, source));
      if nodes == [] {
        SetOfNothing(nodes);
        return Err(Conflict);
      }
      SetOfSomething(nodes);
      var command := table.tasks[source].command;
      r := Insert(id, TaskRow(command, createdBy, Some(source), createdAt), nodes, ids);
    }

    /** The rows of a query, in ascending order. */
    static method Sorted(items: set<nat>) returns (r: seq<nat>)
      requires 0 !in items
      ensures Distinct(r) && SetOf(r) == items && |r| == |items| && Ascending(r)
    {
      hide SetOf, Ascending, AllBefore, Distinct;
      r := [];
      var rest := items;
      NothingSorted(items);
      while rest != {}
        invariant rest <= items && SetOf(r) == items - rest && |r| == |items| - |rest|
        invariant Ascending(r) && AllBefore(r, rest)
        decreases rest
      {
        ghost var least := MinimumExists(rest);
        var n :| n in rest && forall m :: m in rest ==> n <= m;
        NextSorted(r, rest, n);
        r := r + [n];
        rest := rest - {n};
      }
      AscendingIsDistinct(r);
    }
  }

  ghost predicate Ascending(items: seq<nat>) {
    forall i, j :: 0 <= i < j < |items| ==> items[i] < items[j]
  }

  ghost predicate AllBefore(items: seq<nat>, rest: set<nat>) {
    forall i, n :: 0 <= i < |items| && n in rest ==> items[i] < n
  }

  lemma NothingSorted(items: set<nat>)
    ensures SetOf([]) == {} && Ascending([]) && AllBefore([], items)
  {
  }

  lemma NextSorted(items: seq<nat>, rest: set<nat>, n: nat)
    requires Ascending(items) && AllBefore(items, rest) && n in rest && forall m :: m in rest ==> n <= m
    ensures Ascending(items + [n]) && AllBefore(items + [n], rest - {n}) && SetOf(items + [n]) == SetOf(items) + {n}
  {
  }

  lemma AscendingIsDistinct(items: seq<nat>)
    requires Ascending(items) && 0 !in SetOf(items)
    ensures Distinct(items)
  {
    assert forall i :: 0 <= i < |items| ==> items[i] in SetOf(items);
  }

  lemma TableHasRow(table: Table, id: nat)
    requires TableOk(table) && id in table.rows
    ensures RowOk(table.rows[id])
  {
  }

  lemma TableIsPlaced(table: Table)
    requires TableOk(table)
    ensures Placed(table)
  {
  }

  lemma SetOfNothing(items: seq<nat>)
    requires items == []
    ensures SetOf(items) == {}
  {
  }

  lemma SetOfSomething(items: seq<nat>)
    requires items != []
    ensures SetOf(items) != {}
  {
    assert items[0] in SetOf(items);
  }

  lemma CompletionHolds(before: Rows, after: Rows, node: nat, hash: Hash, c: Completion, now: int)
    requires CompletedBy(before, after, node, hash, c, now)
    ensures Confirmed(after, node, hash, c)
    ensures c.execution in before && !before[c.execution].status.Terminal()
  {
  }

  /** A finished row answers every later report as it does now. */
  lemma FinishedStays(before: Rows, after: Rows, id: nat)
    requires Later(before, after) && id in before
    ensures id in after && (before[id].status.Terminal() ==> after[id] == before[id])
  {
  }
}
