/** The table of remote command executions and the statements on it: an
    execution is claimed under a lease, started, completed or expired.
    An id or a hash of 0 stands for the empty string, a time of 0 for the zero
    time; times and durations are numbers of milliseconds; a token is known by
    its hash. */
module CommandTable {
  import opened Prelude
  import opened Utf8

  type Hash = nat

  datatype Status = Queued | Leased | Running | Succeeded | Failed | TimedOut
  {
    predicate Terminal() {
      Succeeded? || Failed? || TimedOut?
    }
  }

  datatype Completion = Completion(
    execution: nat,
    status: Status,
    exitCode: Option<int>,
    output: Bytes,
    truncated: bool,
    error: Bytes,
    duration: int)

  datatype Row = Row(
    task: nat,
    node: nat,
    status: Status,
    attempt: nat,
    token: Option<Hash>,
    expires: Option<int>,
    startedAt: Option<int>,
    finishedAt: Option<int>,
    exitCode: Option<int>,
    output: Bytes,
    truncated: bool,
    error: Bytes,
    duration: Option<int>)

  type Rows = map<nat, Row>

  datatype Command = Command(shell: string, text: string, timeout: int)

  datatype TaskRow = TaskRow(command: Command, createdBy: nat, retriedFrom: Option<nat>, createdAt: int)

  datatype Table = Table(tasks: map<nat, TaskRow>, rows: Rows)

  const AGENT_STOPPED := Ascii("Agent stopped before reporting the command result")

  // ---- What the statements do to a row --------------------------------------

  function NewRow(task: nat, node: nat): Row {
    Row(task, node, Queued, 0, None, None, None, None, None, [], false, [], None)
  }

  predicate Overdue(row: Row, now: int) {
    row.expires.Some? && row.expires.value <= now
  }

  /** A running execution of the node whose lease is over has failed, */
  function Lapsed(row: Row, node: nat, now: int): Row {
    if row.node == node && row.status == Running && Overdue(row, now) then
      row.(status := Failed, finishedAt := Some(now), error := AGENT_STOPPED)
    else row
  }

  /** and one that was never started waits again. */
  function Requeued(row: Row, node: nat, now: int): Row {
    if row.node == node && row.status == Leased && Overdue(row, now) then
      row.(status := Queued, token := None, expires := None)
    else row
  }

  function Granted(row: Row, hash: Hash, expires: int): Row {
    row.(status := Leased, attempt := row.attempt + 1, token := Some(hash), expires := Some(expires))
  }

  function Started(row: Row, now: int): Row {
    row.(status := Running, startedAt := if row.startedAt.Some? then row.startedAt else Some(now))
  }

  function Completed(row: Row, c: Completion, now: int): Row {
    row.(status := c.status, exitCode := c.exitCode, output := c.output, truncated := c.truncated,
         error := c.error, duration := Some(c.duration), finishedAt := Some(now))
  }

  /** The row a lease holder addresses. */
  predicate Holds(rows: Rows, id: nat, node: nat, hash: Hash) {
    id in rows && rows[id].node == node && rows[id].token == Some(hash)
  }

  predicate LeaseLive(rows: Rows, id: nat, node: nat, hash: Hash, now: int) {
    && Holds(rows, id, node, hash)
    && rows[id].expires.Some? && rows[id].expires.value > now
    && (rows[id].status == Leased || rows[id].status == Running)
  }

  /** The stored outcome is the reported one. */
  predicate SameCompletion(row: Row, c: Completion) {
    && row.status == c.status && row.output == c.output && row.truncated == c.truncated
    && row.error == c.error && row.duration == Some(c.duration) && row.exitCode == c.exitCode
  }

  // ---- What the statements do to the table ----------------------------------

  function LapseAll(rows: Rows, node: nat, now: int): Rows {
    map id | id in rows :: Lapsed(rows[id], node, now)
  }

  function RequeueAll(rows: Rows, node: nat, now: int): Rows {
    map id | id in rows :: Requeued(rows[id], node, now)
  }

  /** The two statements a claim starts with. */
  function Settle(table: Table, node: nat, now: int): Table {
    table.(rows := RequeueAll(LapseAll(table.rows, node, now), node, now))
  }

  function Grant(rows: Rows, id: nat, hash: Hash, expires: int): Rows
    requires id in rows
  {
    rows[id := Granted(rows[id], hash, expires)]
  }

  function Lease(table: Table, id: nat, hash: Hash, expires: int): Table
    requires id in table.rows
  {
    table.(rows := Grant(table.rows, id, hash, expires))
  }

  ghost predicate StartedBy(before: Rows, after: Rows, id: nat, node: nat, hash: Hash, now: int) {
    && LeaseLive(before, id, node, hash, now)
    && var row := before[id];
       after == before[id := row.(status := Running,
                                  startedAt := if row.startedAt.Some? then row.startedAt else Some(now))]
  }

  ghost predicate CompletedBy(before: Rows, after: Rows, node: nat, hash: Hash, c: Completion, now: int) {
    && c.status.Terminal()
    && LeaseLive(before, c.execution, node, hash, now)
    && var row := before[c.execution];
       after == before[c.execution := Row(row.task, row.node, c.status, row.attempt, row.token, row.expires,
                                          row.startedAt, Some(now), c.exitCode, c.output, c.truncated, c.error,
                                          Some(c.duration))]
  }

  /** A repeated report is accepted when it is the stored one. */
  predicate Confirmed(rows: Rows, node: nat, hash: Hash, c: Completion) {
    Holds(rows, c.execution, node, hash) && SameCompletion(rows[c.execution], c)
  }

  // ---- The invariant of the table -------------------------------------------

  predicate RowOk(row: Row) {
    && (row.status == Queued ==> row.token == None && row.expires == None)
    && (row.status != Queued ==> row.token.Some? && row.expires.Some? && row.attempt > 0)
    && (row.status == Running ==> row.startedAt.Some?)
    && (row.finishedAt.Some? <==> row.status.Terminal())
    && (row.duration.Some? ==> row.status.Terminal())
    && (row.status.Terminal() && row.duration == None ==> row.status == Failed && row.error == AGENT_STOPPED)
  }

  ghost predicate RowsOk(rows: Rows) {
    forall id :: id in rows ==> RowOk(rows[id])
  }

  /** No task has two executions on one node, and every execution belongs to a task. */
  ghost predicate Placed(table: Table) {
    && (forall id :: id in table.rows ==> table.rows[id].task in table.tasks && table.rows[id].node != 0)
    && (forall i, j :: i in table.rows && j in table.rows && i != j && table.rows[i].task == table.rows[j].task ==>
                         table.rows[i].node != table.rows[j].node)
  }

  ghost predicate TableOk(table: Table) {
    RowsOk(table.rows) && Placed(table)
  }

  /** What may become of a row: a finished one is never touched again, and one
      that has been started keeps its lease for good. */
  predicate RowLater(before: Row, after: Row) {
    && after.task == before.task && after.node == before.node && before.attempt <= after.attempt
    && (before.startedAt.Some? ==> after.startedAt == before.startedAt)
    && (before.status.Terminal() ==> after == before)
    && (before.status == Running ==>
          && after.token == before.token && after.attempt == before.attempt
          && (after.status == Running || after.status.Terminal()))
  }

  ghost predicate Later(before: Rows, after: Rows) {
    forall id :: id in before ==> id in after && RowLater(before[id], after[id])
  }

  lemma RowsAreLater(rows: Rows)
    ensures Later(rows, rows)
  {
  }

  lemma LaterTwice(a: Rows, b: Rows, c: Rows)
    requires Later(a, b) && Later(b, c)
    ensures Later(a, c)
  {
    forall id | id in a ensures id in c && RowLater(a[id], c[id]) {
      assert id in b && RowLater(a[id], b[id]);
    }
  }

  /** A statement that touches one row. */
  lemma RowReplaced(table: Table, id: nat, row: Row)
    requires TableOk(table) && id in table.rows && RowOk(row) && RowLater(table.rows[id], row)
    ensures TableOk(table.(rows := table.rows[id := row])) && Later(table.rows, table.rows[id := row])
  {
  }

  lemma RowGranted(row: Row, hash: Hash, expires: int)
    requires RowOk(row) && row.status == Queued
    ensures RowOk(Granted(row, hash, expires)) && RowLater(row, Granted(row, hash, expires))
  {
  }

  lemma RowStarted(row: Row, now: int)
    requires RowOk(row) && (row.status == Leased || row.status == Running)
    ensures RowOk(Started(row, now)) && RowLater(row, Started(row, now))
  {
  }

  lemma RowCompleted(row: Row, c: Completion, now: int)
    requires RowOk(row) && (row.status == Leased || row.status == Running) && c.status.Terminal()
    ensures RowOk(Completed(row, c, now)) && RowLater(row, Completed(row, c, now))
    ensures SameCompletion(Completed(row, c, now), c)
  {
  }

  lemma RowSettled(row: Row, node: nat, now: int)
    requires RowOk(row)
    ensures var after := Requeued(Lapsed(row, node, now), node, now);
            && RowOk(after) && RowLater(row, after)
            && (row.node == node && !after.status.Terminal() ==> !Overdue(after, now))
  {
    hide Ascii;
  }

  /** Nothing of the node is still leased or running past its lease. */
  ghost predicate NoneOverdue(rows: Rows, node: nat, now: int) {
    forall id :: id in rows && rows[id].node == node && !rows[id].status.Terminal() ==> !Overdue(rows[id], now)
  }

  /** Settling the overdue rows of a node keeps the table in order and leaves it no expired lease. */
  lemma SettledOk(table: Table, node: nat, now: int)
    requires TableOk(table)
    ensures TableOk(Settle(table, node, now)) && Later(table.rows, Settle(table, node, now).rows)
    ensures NoneOverdue(Settle(table, node, now).rows, node, now)
  {
    hide RowOk, RowLater, Lapsed, Requeued, Overdue;
    var after := Settle(table, node, now).rows;
    forall id | id in after
      ensures RowOk(after[id]) && RowLater(table.rows[id], after[id])
      ensures after[id].node == node && !after[id].status.Terminal() ==> !Overdue(after[id], now)
      ensures after[id].task == table.rows[id].task && after[id].node == table.rows[id].node
    {
      RowSettled(table.rows[id], node, now);
      assert after[id] == Requeued(Lapsed(table.rows[id], node, now), node, now);
      RowLaterKeeps(table.rows[id], after[id]);
    }
  }

  lemma RowLaterKeeps(before: Row, after: Row)
    requires RowLater(before, after)
    ensures after.task == before.task && after.node == before.node
  {
  }

  // ---- The next execution of a node -------------------------------------------

  predicate WaitingFor(table: Table, node: nat, locked: set<nat>, id: nat) {
    id in table.rows && table.rows[id].node == node && table.rows[id].status == Queued &&
    table.rows[id].task in table.tasks && id !in locked
  }

  /** By the creation time of the task, then by id. */
  predicate Precedes(table: Table, i: nat, j: nat)
    requires i in table.rows && table.rows[i].task in table.tasks
    requires j in table.rows && table.rows[j].task in table.tasks
  {
    var a := table.tasks[table.rows[i].task].createdAt;
    var b := table.tasks[table.rows[j].task].createdAt;
    a < b || (a == b && i <= j)
  }

  ghost predicate Least(table: Table, node: nat, locked: set<nat>, id: nat) {
    && WaitingFor(table, node, locked, id)
    && forall j :: WaitingFor(table, node, locked, j) ==> Precedes(table, id, j)
  }

  lemma {:induction false} LeastExists(table: Table, node: nat, locked: set<nat>, candidates: set<nat>)
    returns (least: nat)
    requires candidates != {} && forall id :: id in candidates ==> WaitingFor(table, node, locked, id)
    ensures least in candidates && WaitingFor(table, node, locked, least)
    ensures forall j :: j in candidates ==> WaitingFor(table, node, locked, j) && Precedes(table, least, j)
    decreases candidates
  {
    var id :| id in candidates;
    if candidates == {id} {
      least := id;
    } else {
      var rest := LeastExists(table, node, locked, candidates - {id});
      least := if Precedes(table, id, rest) then id else rest;
      forall j | j in candidates ensures Precedes(table, least, j) {
        assert j == id || j in candidates - {id};
      }
    }
  }

  /** What a claim does to one row of the table: a running row of the node whose lease is over has failed; the chosen
      one is leased; one that was leased, never started, and whose lease is over waits again; no other row changes. */
  predicate RowClaimed(before: Row, after: Row, node: nat, hash: Hash, now: int, expires: int, chosen: bool) {
    if before.node == node && before.status == Running && Overdue(before, now) then
      && !chosen
      && after == before.(status := Failed, finishedAt := Some(now),
                          error := Ascii("Agent stopped before reporting the command result"))
    else if chosen then
      after == before.(status := Leased, attempt := before.attempt + 1, token := Some(hash), expires := Some(expires))
    else if before.node == node && before.status == Leased && Overdue(before, now) then
      after == before.(status := Queued, token := None, expires := None)
    else
      after == before
  }

  /** A row a claim of the node may choose: it waits, or was leased and never started until its lease was over. */
  predicate Candidate(table: Table, node: nat, now: int, locked: set<nat>, id: nat) {
    && id in table.rows && table.rows[id].node == node && table.rows[id].task in table.tasks && id !in locked
    && (table.rows[id].status == Queued || (table.rows[id].status == Leased && Overdue(table.rows[id], now)))
  }

  /** What a claim does to the table: it chooses the least candidate, and none only if there is none. */
  ghost predicate Claimed(before: Table, after: Table, node: nat, hash: Hash, now: int, duration: int, locked: set<nat>,
                          id: Option<nat>) {
    && after.tasks == before.tasks && after.rows.Keys == before.rows.Keys
    && (forall j :: j in before.rows ==>
          RowClaimed(before.rows[j], after.rows[j], node, hash, now, now + duration, id == Some(j)))
    && (id.Some? ==> Candidate(before, node, now, locked, id.value))
    && (forall j :: Candidate(before, node, now, locked, j) ==> id.Some? && Precedes(before, id.value, j))
  }

  lemma SettledRow(table: Table, node: nat, now: int, j: nat)
    requires j in table.rows
    ensures j in Settle(table, node, now).rows
    ensures Settle(table, node, now).rows[j] == Requeued(Lapsed(table.rows[j], node, now), node, now)
    ensures Settle(table, node, now).tasks == table.tasks && Settle(table, node, now).rows.Keys == table.rows.Keys
  {
    hide Ascii;
  }

  /** The candidates are what waits once the table is settled. */
  lemma SettledCandidates(table: Table, node: nat, now: int, locked: set<nat>, j: nat)
    ensures WaitingFor(Settle(table, node, now), node, locked, j) <==> Candidate(table, node, now, locked, j)
  {
    hide Ascii, Settle;
    if j in table.rows {
      SettledRow(table, node, now, j);
    } else {
      SettleAddsNothing(table, node, now, j);
    }
  }

  lemma SettleAddsNothing(table: Table, node: nat, now: int, j: nat)
    requires j !in table.rows
    ensures j !in Settle(table, node, now).rows
  {
    hide Ascii;
  }

  lemma RowIsClaimed(row: Row, node: nat, hash: Hash, now: int, expires: int, chosen: bool)
    requires chosen ==> row.node == node && (row.status == Queued || (row.status == Leased && Overdue(row, now)))
    ensures var settled := Requeued(Lapsed(row, node, now), node, now);
            var after := if chosen then Granted(settled, hash, expires) else settled;
            RowClaimed(row, after, node, hash, now, expires, chosen)
  {
    hide Ascii;
  }

  /** The three statements of a claim are a claim. */
  lemma StatementsClaim(before: Table, after: Table, node: nat, hash: Hash, now: int, duration: int, locked: set<nat>,
                        id: Option<nat>)
    requires id.Some? ==>
               && Least(Settle(before, node, now), node, locked, id.value)
               && after == Lease(Settle(before, node, now), id.value, hash, now + duration)
    requires id.None? ==>
               after == Settle(before, node, now) && forall j :: !WaitingFor(Settle(before, node, now), node, locked, j)
    ensures Claimed(before, after, node, hash, now, duration, locked, id)
  {
    hide Ascii, Settle, WaitingFor, RowClaimed, Overdue, Granted, Requeued, Lapsed;
    var settled := Settle(before, node, now);
    if id.Some? {
      SettledCandidates(before, node, now, locked, id.value);
      CandidateRow(before, node, now, locked, id.value);
      SettledRow(before, node, now, id.value);
    }
    SettledTable(before, node, now);
    forall j | j in before.rows
      ensures RowClaimed(before.rows[j], after.rows[j], node, hash, now, now + duration, id == Some(j))
    {
      SettledRow(before, node, now, j);
      RowIsClaimed(before.rows[j], node, hash, now, now + duration, id == Some(j));
    }
    forall j | Candidate(before, node, now, locked, j) ensures id.Some? && Precedes(before, id.value, j) {
      SettledCandidates(before, node, now, locked, j);
      CandidateRow(before, node, now, locked, j);
      SettledPrecedes(before, node, now, id.value, j);
    }
  }

  lemma SettledTable(table: Table, node: nat, now: int)
    ensures Settle(table, node, now).tasks == table.tasks && Settle(table, node, now).rows.Keys == table.rows.Keys
  {
    hide Ascii;
  }

  lemma CandidateRow(table: Table, node: nat, now: int, locked: set<nat>, id: nat)
    requires Candidate(table, node, now, locked, id)
    ensures id in table.rows && table.rows[id].task in table.tasks && table.rows[id].node == node
    ensures table.rows[id].status == Queued || (table.rows[id].status == Leased && Overdue(table.rows[id], now))
  {
  }

  lemma SettledPrecedes(table: Table, node: nat, now: int, i: nat, j: nat)
    requires i in table.rows && table.rows[i].task in table.tasks
    requires j in table.rows && table.rows[j].task in table.tasks
    ensures var settled := Settle(table, node, now);
            && i in settled.rows && j in settled.rows && settled.rows[i].task in settled.tasks
            && settled.rows[j].task in settled.tasks
            && (Precedes(settled, i, j) <==> Precedes(table, i, j))
  {
    hide Ascii, Settle;
    SettledRow(table, node, now, i);
    SettledRow(table, node, now, j);
  }

  lemma RowClaimedIsUnique(row: Row, a: Row, b: Row, node: nat, hash: Hash, now: int, expires: int, chosen: bool)
    requires RowClaimed(row, a, node, hash, now, expires, chosen)
    requires RowClaimed(row, b, node, hash, now, expires, chosen)
    ensures a == b
  {
    hide Ascii;
  }

  /** and a claim is nothing else. */
  lemma ClaimIsStatements(before: Table, after: Table, node: nat, hash: Hash, now: int, duration: int,
                          locked: set<nat>, id: Option<nat>)
    requires Claimed(before, after, node, hash, now, duration, locked, id)
    ensures var settled := Settle(before, node, now);
            match id
            case None => after == settled
            case Some(i) =>
              && i in settled.rows && settled.rows[i].status == Queued
              && after == Lease(settled, i, hash, now + duration)
  {
    hide Ascii, Settle, RowClaimed, Requeued, Lapsed, Granted, Precedes;
    var settled := Settle(before, node, now);
    SettledTable(before, node, now);
    if id.Some? {
      SettledCandidates(before, node, now, locked, id.value);
    }
    var rows := if id.Some? then Grant(settled.rows, id.value, hash, now + duration) else settled.rows;
    forall k | k in before.rows ensures after.rows[k] == rows[k] {
      SettledRow(before, node, now, k);
      RowIsClaimed(before.rows[k], node, hash, now, now + duration, id == Some(k));
      RowClaimedIsUnique(before.rows[k], after.rows[k], rows[k], node, hash, now, now + duration, id == Some(k));
    }
    assert after.rows == rows;
  }

  /** After a claim nothing of the node is overdue, and the claimed row holds a live lease that is counted as an
      attempt. */
  lemma ClaimLeavesNoneOverdue(before: Table, after: Table, node: nat, hash: Hash, now: int, duration: int,
                               locked: set<nat>, id: Option<nat>)
    requires TableOk(before) && duration > 0 && Claimed(before, after, node, hash, now, duration, locked, id)
    ensures NoneOverdue(after.rows, node, now)
    ensures id.Some? ==>
              && LeaseLive(after.rows, id.value, node, hash, now) && id.value in before.rows
              && after.rows[id.value].attempt == before.rows[id.value].attempt + 1
  {
    hide Ascii, Candidate, Precedes;
    if id.Some? {
      CandidateRow(before, node, now, locked, id.value);
    }
    forall j | j in after.rows && after.rows[j].node == node && !after.rows[j].status.Terminal()
      ensures !Overdue(after.rows[j], now)
    {
      assert RowClaimed(before.rows[j], after.rows[j], node, hash, now, now + duration, id == Some(j));
      assert RowOk(before.rows[j]);
    }
  }

  /** A claim takes the oldest candidate of the node, and finds none only if there is none. */
  lemma ClaimTakesTheOldest(before: Table, after: Table, node: nat, hash: Hash, now: int, duration: int,
                            locked: set<nat>, id: Option<nat>, j: nat)
    requires TableOk(before) && Claimed(before, after, node, hash, now, duration, locked, id)
    requires j in before.rows && before.rows[j].node == node && before.rows[j].task in before.tasks && j !in locked
    requires || before.rows[j].status == Queued
             || (before.rows[j].status == Leased && before.rows[j].expires.Some? && before.rows[j].expires.value <= now)
    ensures id.Some? && id.value in before.rows && before.rows[id.value].task in before.tasks
    ensures var a := before.tasks[before.rows[id.value].task].createdAt;
            var b := before.tasks[before.rows[j].task].createdAt;
            a <= b && (a == b ==> id.value <= j)
    ensures after.rows[id.value].status == Leased && after.rows[id.value].token == Some(hash)
    ensures Some(j) != id ==> after.rows[j].status == Queued && after.rows[j].expires == None
  {
    hide Ascii;
    assert Candidate(before, node, now, locked, j);
    assert Precedes(before, id.value, j);
  }

  /** A claim takes away exactly the leases of its node that start and complete no longer accept. */
  lemma LeaseSurvivesAClaimIff(before: Table, after: Table, node: nat, hash: Hash, now: int, duration: int,
                               locked: set<nat>, id: Option<nat>, other: nat, holder: nat, held: Hash)
    requires TableOk(before) && Claimed(before, after, node, hash, now, duration, locked, id)
    requires Holds(before.rows, other, holder, held) && !before.rows[other].status.Terminal()
    ensures other in after.rows
    ensures after.rows[other] == before.rows[other] <==>
            holder != node || LeaseLive(before.rows, other, holder, held, now)
  {
    hide Ascii, Precedes;
    assert RowOk(before.rows[other]);
    assert RowClaimed(before.rows[other], after.rows[other], node, hash, now, now + duration, id == Some(other));
  }

  // ---- New tasks ----------------------------------------------------------------

  /** No empty entry and no entry twice. */
  ghost predicate Distinct(items: seq<nat>) {
    && (forall i :: 0 <= i < |items| ==> items[i] != 0)
    && (forall i, j :: 0 <= i < j < |items| ==> items[i] != items[j])
  }

  function SetOf(items: seq<nat>): set<nat> {
    set n | n in items
  }

  lemma Appended(items: seq<nat>, i: nat)
    requires Distinct(items) && i < |items|
    ensures SetOf(items[..i + 1]) == SetOf(items[..i]) + {items[i]} && items[i] !in SetOf(items[..i]) && items[i] != 0
  {
    assert items[..i + 1] == items[..i] + [items[i]];
  }

  /** The nodes on which a task failed or timed out. */
  function Failures(table: Table, task: nat): set<nat> {
    set id | id in table.rows && table.rows[id].task == task && table.rows[id].status in {Failed, TimedOut} ::
      table.rows[id].node
  }

  function NodesOf(rows: Rows, task: nat): set<nat> {
    set i | i in rows && rows[i].task == task :: rows[i].node
  }

  /** New queued rows of a task, one for each of the nodes, and every other row as it was. */
  ghost predicate RowsInserted(before: Rows, after: Rows, task: nat, nodes: set<nat>) {
    && (forall i :: i in before ==> i in after && after[i] == before[i])
    && (forall i :: i in after && i !in before ==>
          after[i] == Row(task, after[i].node, Queued, 0, None, None, None, None, None, [], false, [], None))
    && (forall i, j :: i in after && i !in before && j in after && j !in before && i != j ==>
        after[i].node != after[j].node)
    && nodes == NodesOf(after, task)
  }

  lemma NoneInserted(table: Table, task: nat)
    requires Placed(table) && task !in table.tasks
    ensures RowsInserted(table.rows, table.rows, task, {})
  {
  }

  lemma NodeAdded(rows: Rows, task: nat, id: nat, node: nat)
    requires id !in rows
    ensures NodesOf(rows[id := NewRow(task, node)], task) == NodesOf(rows, task) + {node}
  {
    var after := rows[id := NewRow(task, node)];
    assert after[id].node == node;
    forall n | n in NodesOf(rows, task) ensures n in NodesOf(after, task) {
      var i :| i in rows && rows[i].task == task && rows[i].node == n;
      assert i in after && after[i] == rows[i];
    }
  }

  lemma InNodes(rows: Rows, task: nat, id: nat)
    requires id in rows && rows[id].task == task
    ensures rows[id].node in NodesOf(rows, task)
  {
  }

  lemma OneInserted(before: Rows, middle: Rows, task: nat, nodes: set<nat>, id: nat, node: nat)
    requires RowsInserted(before, middle, task, nodes) && id !in middle && node !in nodes
    ensures RowsInserted(before, middle[id := NewRow(task, node)], task, nodes + {node})
  {
    hide NodesOf;
    forall i | i in middle && i !in before ensures middle[i].node in nodes {
      InNodes(middle, task, i);
    }
    NodeAdded(middle, task, id, node);
  }

  /** A new task with one queued row for each of the nodes, and nothing else changed. */
  ghost predicate Inserted(before: Table, after: Table, id: nat, task: TaskRow, nodes: set<nat>) {
    && id !in before.tasks && after.tasks == before.tasks[id := task]
    && RowsInserted(before.rows, after.rows, id, nodes)
  }

  lemma InsertedOk(before: Table, after: Table, id: nat, task: TaskRow, nodes: set<nat>)
    requires TableOk(before) && Inserted(before, after, id, task, nodes) && 0 !in nodes
    ensures TableOk(after) && Later(before.rows, after.rows)
  {
    hide NodesOf;
    forall i | i in after.rows && i !in before.rows ensures after.rows[i].node in nodes {
      InNodes(after.rows, id, i);
    }
    forall i, j | i in after.rows && j in after.rows && i != j && after.rows[i].task == after.rows[j].task
      ensures after.rows[i].node != after.rows[j].node
    {
      assert i in before.rows ==> before.rows[i].task != id;
      assert j in before.rows ==> before.rows[j].task != id;
    }
  }

  lemma FailuresAreNodes(table: Table, task: nat)
    requires Placed(table)
    ensures 0 !in Failures(table, task)
  {
  }

  lemma {:induction false} MinimumExists(items: set<nat>) returns (least: nat)
    requires items != {}
    ensures least in items && forall n :: n in items ==> least <= n
    decreases items
  {
    var n :| n in items;
    if items == {n} {
      least := n;
    } else {
      var rest := MinimumExists(items - {n});
      least := if n <= rest then n else rest;
      assert forall m :: m in items ==> m == n || m in items - {n};
    }
  }

  // ---- The summary of a task ------------------------------------------------------

  /** The executions of a task in one status, and all of them. */
  function InStatus(rows: Rows, task: nat, status: Status): set<nat> {
    set id | id in rows && rows[id].task == task && rows[id].status == status
  }

  function Targets(rows: Rows, task: nat): set<nat> {
    set id | id in rows && rows[id].task == task
  }


  function Rank(status: Status): nat {
    match status
    case Queued => 0
    case Leased => 1
    case Running => 2
    case Succeeded => 3
    case Failed => 4
    case TimedOut => 5
  }

  function Below(rows: Rows, task: nat, n: nat): set<nat> {
    set id | id in rows && rows[id].task == task && Rank(rows[id].status) < n
  }

  lemma OneMore(rows: Rows, task: nat, status: Status)
    ensures |Below(rows, task, Rank(status) + 1)| == |Below(rows, task, Rank(status))| + |InStatus(rows, task, status)|
  {
    var one := InStatus(rows, task, status);
    var rest := Below(rows, task, Rank(status));
    assert one !! rest;
    assert Below(rows, task, Rank(status) + 1) == rest + one;
  }

  /** The six counts of a task summary add up to its target count. */
  lemma CountsAddUp(rows: Rows, task: nat)
    ensures |Targets(rows, task)| ==
            |InStatus(rows, task, Queued)| + |InStatus(rows, task, Leased)| + |InStatus(rows, task, Running)| +
            |InStatus(rows, task, Succeeded)| + |InStatus(rows, task, Failed)| + |InStatus(rows, task, TimedOut)|
  {
    hide InStatus;
    assert Below(rows, task, 0) == {};
    OneMore(rows, task, Queued);
    OneMore(rows, task, Leased);
    OneMore(rows, task, Running);
    OneMore(rows, task, Succeeded);
    OneMore(rows, task, Failed);
    OneMore(rows, task, TimedOut);
    assert Below(rows, task, 6) == Targets(rows, task);
  }

  lemma {:induction false} Distinguished(ids: set<nat>, rows: Rows, nodes: set<nat>)
    requires forall i :: i in ids ==> i in rows
    requires forall i, j :: i in ids && j in ids && i != j ==> rows[i].node != rows[j].node
    requires nodes == set i | i in ids :: rows[i].node
    ensures |nodes| == |ids|
  {
    if ids != {} {
      var i :| i in ids;
      var rest := ids - {i};
      var others := set j | j in rest :: rows[j].node;
      Distinguished(rest, rows, others);
      assert nodes == others + {rows[i].node};
    }
  }

  /** A retry has as many targets as the summary of its source counts failures and timeouts. */
  lemma RetryCountsFailures(table: Table, task: nat)
    requires Placed(table)
    ensures |Failures(table, task)| == |InStatus(table.rows, task, Failed)| + |InStatus(table.rows, task, TimedOut)|
  {
    var ids := InStatus(table.rows, task, Failed) + InStatus(table.rows, task, TimedOut);
    assert InStatus(table.rows, task, Failed) !! InStatus(table.rows, task, TimedOut);
    Distinguished(ids, table.rows, Failures(table, task));
  }
}
