/** Server, workers and network together: every statement of the server is one
    step, so the statements of a claim need not even be isolated from others;
    a request may be lost, delayed, repeated or sent by anyone, at whatever time
    the server's clock shows; a reply reaches its worker once or never; a worker
    may die between any two of its steps. */
module CommandProtocol {
  import opened Prelude
  import opened CommandTable

  /** `issued`: the execution of every token ever handed out in a claim;
      `inFlight`: claims whose reply is on its way; `held`: claims a living worker has not run yet;
      `accepted`: the tokens of the start requests the server granted;
      `executed`: the tokens whose command was run, in order; `outcome`: what each run produced;
      `confirmed`: the reports the server accepted. */
  datatype State = State(
    rows: Rows,
    issued: map<Hash, nat>,
    inFlight: set<Hash>,
    held: set<Hash>,
    accepted: set<Hash>,
    executed: seq<Hash>,
    outcome: map<Hash, Completion>,
    confirmed: set<Completion>)

  datatype Step =
    | Create(task: nat, nodes: set<nat>)
    | Lapse(node: nat, now: int)
    | Requeue(node: nat, now: int)
    | GrantLease(id: nat, hash: Hash, expires: int)
    | Deliver(hash: Hash)
    | LoseReply(hash: Hash)
    | AcceptStart(id: nat, hash: Hash, node: nat, now: int)
    | Execute(hash: Hash, c: Completion)
    | Record(hash: Hash, c: Completion, node: nat, now: int)
    | Confirm(hash: Hash, c: Completion, node: nat)
    | Crash(lost: set<Hash>)

  predicate Init(s: State) {
    s == State(map[], map[], {}, {}, {}, [], map[], {})
  }

  ghost predicate Next(s: State, step: Step, t: State) {
    match step
    case Create(task, nodes) => t == s.(rows := t.rows) && RowsInserted(s.rows, t.rows, task, nodes)
    // the three statements of a claim
    case Lapse(node, now) => t == s.(rows := LapseAll(s.rows, node, now))
    case Requeue(node, now) => t == s.(rows := RequeueAll(s.rows, node, now))
    case GrantLease(id, hash, expires) =>
      && id in s.rows && s.rows[id].status == Queued && hash !in s.issued
      && t == s.(rows := Grant(s.rows, id, hash, expires), issued := s.issued[hash := id],
                 inFlight := s.inFlight + {hash})
    case Deliver(hash) => hash in s.inFlight && t == s.(inFlight := s.inFlight - {hash}, held := s.held + {hash})
    case LoseReply(hash) => t == s.(inFlight := s.inFlight - {hash})
    case AcceptStart(id, hash, node, now) =>
      && StartedBy(s.rows, t.rows, id, node, hash, now)
      && t == s.(rows := t.rows, accepted := s.accepted + {hash})
    // a worker runs the command of a claim once it learns that its start was accepted
    case Execute(hash, c) =>
      && hash in s.held && hash in s.accepted && hash in s.issued && c.execution == s.issued[hash]
      && t == s.(held := s.held - {hash}, executed := s.executed + [hash], outcome := s.outcome[hash := c])
    // the two statements of a report, whatever it says and whoever sends it
    case Record(hash, c, node, now) =>
      && CompletedBy(s.rows, t.rows, node, hash, c, now)
      && t == s.(rows := t.rows, confirmed := s.confirmed + {c})
    case Confirm(hash, c, node) =>
      && Confirmed(s.rows, node, hash, c)
      && t == s.(confirmed := s.confirmed + {c})
    case Crash(lost) => t == s.(held := s.held - lost)
  }

  // ---- What every step keeps ---------------------------------------------------

  /** Every token in the table was issued for its row, and counted. */
  ghost predicate TokensOk(rows: Rows, issued: map<Hash, nat>) {
    && RowsOk(rows)
    && (forall id :: id in rows && rows[id].token.Some? ==>
        rows[id].token.value in issued && issued[rows[id].token.value] == id)
    && (forall h :: h in issued ==> issued[h] in rows)
  }

  function LeasesOf(issued: map<Hash, nat>, id: nat): set<Hash> {
    set h | h in issued && issued[h] == id
  }

  ghost predicate AttemptsOk(rows: Rows, issued: map<Hash, nat>) {
    forall id :: id in rows ==> rows[id].attempt == |LeasesOf(issued, id)|
  }

  /** An accepted lease is kept by its row for good. */
  predicate Kept(rows: Rows, id: nat, hash: Hash) {
    id in rows && rows[id].token == Some(hash) && (rows[id].status == Running || rows[id].status.Terminal())
  }

  ghost predicate AcceptedOk(rows: Rows, issued: map<Hash, nat>, accepted: set<Hash>) {
    forall h :: h in accepted ==> h in issued && Kept(rows, issued[h], h)
  }

  /** A claim is in one place: in a reply, with a worker, or run. */
  ghost predicate ClaimsOk(s: State) {
    && s.inFlight !! s.held
    && (forall h :: h in s.inFlight + s.held ==> h in s.issued)
    && (forall i :: 0 <= i < |s.executed| ==>
          s.executed[i] in s.accepted && s.executed[i] !in s.inFlight + s.held && s.executed[i] in s.outcome)
    && (forall i, j :: 0 <= i < j < |s.executed| ==> s.executed[i] != s.executed[j])
    && (forall h :: h in s.outcome ==> h in s.executed && h in s.issued && s.outcome[h].execution == s.issued[h])
  }

  /** A confirmed report is what the row holds. */
  predicate Stored(rows: Rows, c: Completion) {
    c.execution in rows && rows[c.execution].status.Terminal() && SameCompletion(rows[c.execution], c)
  }

  ghost predicate ReportsOk(rows: Rows, confirmed: set<Completion>) {
    forall c :: c in confirmed ==> Stored(rows, c)
  }

  ghost predicate Inv(s: State) {
    && TokensOk(s.rows, s.issued) && AttemptsOk(s.rows, s.issued)
    && AcceptedOk(s.rows, s.issued, s.accepted) && ClaimsOk(s) && ReportsOk(s.rows, s.confirmed)
  }

  // ---- Each step keeps it --------------------------------------------------------

  /** A statement that changes rows but no token of a started one, and no lease count. */
  ghost predicate Settles(before: Rows, after: Rows) {
    && Later(before, after) && RowsOk(after)
    && (forall id :: id in after && id !in before ==> after[id].token == None && after[id].attempt == 0)
    && (forall id :: id in before ==>
        (after[id].token == before[id].token || after[id].token == None) && after[id].attempt == before[id].attempt)
  }

  lemma LaterKeeps(before: Rows, after: Rows, id: nat, hash: Hash)
    requires Later(before, after) && Kept(before, id, hash)
    ensures Kept(after, id, hash)
  {
  }

  lemma LaterStores(before: Rows, after: Rows, c: Completion)
    requires Later(before, after) && Stored(before, c)
    ensures Stored(after, c)
  {
  }

  lemma SettlingKeepsInv(s: State, t: State)
    requires Inv(s) && Settles(s.rows, t.rows) && t == s.(rows := t.rows)
    requires forall id :: id in t.rows && id !in s.rows ==> LeasesOf(s.issued, id) == {}
    ensures Inv(t)
  {
    hide Kept, Stored, RowOk, RowLater, LeasesOf;
    forall h | h in t.accepted ensures h in t.issued && Kept(t.rows, t.issued[h], h) {
      LaterKeeps(s.rows, t.rows, s.issued[h], h);
    }
    forall c | c in t.confirmed ensures Stored(t.rows, c) {
      LaterStores(s.rows, t.rows, c);
    }
  }

  lemma NewRowsSettle(s: State, after: Rows, task: nat, nodes: set<nat>)
    requires Inv(s) && RowsInserted(s.rows, after, task, nodes)
    ensures Settles(s.rows, after)
    ensures forall id :: id in after && id !in s.rows ==> LeasesOf(s.issued, id) == {}
  {
  }

  lemma RowLapses(row: Row, node: nat, now: int)
    requires RowOk(row)
    ensures var after := Lapsed(row, node, now);
            RowOk(after) && RowLater(row, after) && after.token == row.token && after.attempt == row.attempt
  {
    hide AGENT_STOPPED;
  }

  lemma RowRequeues(row: Row, node: nat, now: int)
    requires RowOk(row)
    ensures var after := Requeued(row, node, now);
            RowOk(after) && RowLater(row, after) && (after.token == row.token || after.token == None)
              && after.attempt == row.attempt
  {
    hide AGENT_STOPPED;
  }

  lemma LapseSettles(rows: Rows, node: nat, now: int)
    requires RowsOk(rows)
    ensures Settles(rows, LapseAll(rows, node, now))
  {
    hide Lapsed, RowOk, RowLater;
    forall id | id in rows {
      RowLapses(rows[id], node, now);
    }
  }

  lemma RequeueSettles(rows: Rows, node: nat, now: int)
    requires RowsOk(rows)
    ensures Settles(rows, RequeueAll(rows, node, now))
  {
    hide Requeued, RowOk, RowLater;
    forall id | id in rows {
      RowRequeues(rows[id], node, now);
    }
  }

  lemma OneLeaseMore(issued: map<Hash, nat>, hash: Hash, id: nat, other: nat)
    requires hash !in issued
    ensures |LeasesOf(issued[hash := id], other)| == |LeasesOf(issued, other)| + if other == id then 1 else 0
  {
    if other == id {
      assert LeasesOf(issued[hash := id], id) == LeasesOf(issued, id) + {hash};
    } else {
      assert LeasesOf(issued[hash := id], other) == LeasesOf(issued, other);
    }
  }

  lemma OneRow(rows: Rows, id: nat, row: Row)
    requires RowsOk(rows) && id in rows && RowOk(row) && RowLater(rows[id], row)
    ensures RowsOk(rows[id := row]) && Later(rows, rows[id := row])
  {
  }

  lemma LaterKeepsAll(before: Rows, after: Rows, issued: map<Hash, nat>, issued': map<Hash, nat>, accepted: set<Hash>)
    requires AcceptedOk(before, issued, accepted) && Later(before, after)
    requires forall h :: h in issued ==> h in issued' && issued'[h] == issued[h]
    ensures AcceptedOk(after, issued', accepted)
  {
    hide Later, Kept;
    forall h | h in accepted ensures h in issued' && Kept(after, issued'[h], h) {
      LaterKeeps(before, after, issued[h], h);
    }
  }

  lemma LaterStoresAll(before: Rows, after: Rows, confirmed: set<Completion>)
    requires ReportsOk(before, confirmed) && Later(before, after)
    ensures ReportsOk(after, confirmed)
  {
    hide Later;
    forall c | c in confirmed ensures Stored(after, c) {
      LaterStores(before, after, c);
    }
  }

  lemma GrantKeepsInv(s: State, t: State, id: nat, hash: Hash, expires: int)
    requires Inv(s) && Next(s, GrantLease(id, hash, expires), t)
    ensures Inv(t) && Later(s.rows, t.rows)
  {
    hide Kept, Stored, RowOk, RowLater, LeasesOf, Later, RowsOk, AcceptedOk, ReportsOk;
    HasRow(s.rows, id);
    RowGranted(s.rows[id], hash, expires);
    OneRow(s.rows, id, Granted(s.rows[id], hash, expires));
    LaterKeepsAll(s.rows, t.rows, s.issued, t.issued, s.accepted);
    LaterStoresAll(s.rows, t.rows, s.confirmed);
    forall other | other in t.rows ensures t.rows[other].attempt == |LeasesOf(t.issued, other)| {
      OneLeaseMore(s.issued, hash, id, other);
    }
  }

  lemma HasRow(rows: Rows, id: nat)
    requires RowsOk(rows) && id in rows
    ensures RowOk(rows[id])
  {
  }

  lemma StartKeepsInv(s: State, t: State, id: nat, hash: Hash, node: nat, now: int)
    requires Inv(s) && Next(s, AcceptStart(id, hash, node, now), t)
    ensures Inv(t) && Later(s.rows, t.rows)
  {
    hide Stored, RowOk, RowLater, LeasesOf, Later, RowsOk, ReportsOk, AcceptedOk;
    HasRow(s.rows, id);
    RowStarted(s.rows[id], now);
    OneRow(s.rows, id, Started(s.rows[id], now));
    LaterKeepsAll(s.rows, t.rows, s.issued, t.issued, s.accepted);
    LaterStoresAll(s.rows, t.rows, s.confirmed);
    OneAccepted(t.rows, t.issued, s.accepted, hash);
  }

  lemma OneAccepted(rows: Rows, issued: map<Hash, nat>, accepted: set<Hash>, hash: Hash)
    requires AcceptedOk(rows, issued, accepted) && hash in issued && Kept(rows, issued[hash], hash)
    ensures AcceptedOk(rows, issued, accepted + {hash})
  {
  }

  lemma RecordKeepsInv(s: State, t: State, hash: Hash, c: Completion, node: nat, now: int)
    requires Inv(s) && Next(s, Record(hash, c, node, now), t)
    ensures Inv(t) && Later(s.rows, t.rows)
  {
    hide RowOk, RowLater, LeasesOf, Later, RowsOk, ReportsOk, AcceptedOk, Kept, SameCompletion;
    HasRow(s.rows, c.execution);
    RowCompleted(s.rows[c.execution], c, now);
    OneRow(s.rows, c.execution, Completed(s.rows[c.execution], c, now));
    LaterKeepsAll(s.rows, t.rows, s.issued, t.issued, s.accepted);
    LaterStoresAll(s.rows, t.rows, s.confirmed);
    OneStored(t.rows, s.confirmed, c);
  }

  lemma OneStored(rows: Rows, confirmed: set<Completion>, c: Completion)
    requires ReportsOk(rows, confirmed) && Stored(rows, c)
    ensures ReportsOk(rows, confirmed + {c})
  {
  }

  lemma ExecuteKeepsInv(s: State, t: State, hash: Hash, c: Completion)
    requires Inv(s) && Next(s, Execute(hash, c), t)
    ensures Inv(t)
  {
    hide Kept, RowOk, RowLater, LeasesOf, Later, RowsOk, TokensOk, AcceptedOk, ReportsOk;
    assert hash !in s.outcome;
  }

  lemma StepKeepsInv(s: State, step: Step, t: State)
    requires Inv(s) && Next(s, step, t)
    ensures Inv(t) && Later(s.rows, t.rows) && s.executed <= t.executed
  {
    hide Inv, Later, TokensOk, AttemptsOk, AcceptedOk, ReportsOk, ClaimsOk, LeasesOf, Settles;
    hide RowsInserted, LapseAll, RequeueAll, Grant, StartedBy, CompletedBy, Confirmed;
    RowsAreLater(s.rows);
    match step
    case Create(task, nodes) =>
      NewRowsSettle(s, t.rows, task, nodes);
      SettlingKeepsInv(s, t);
      SettlesIsLater(s.rows, t.rows);
    case Lapse(node, now) =>
      InvRows(s);
      LapseSettles(s.rows, node, now);
      LapseKeepsKeys(s, node, now);
      SettlingKeepsInv(s, t);
      SettlesIsLater(s.rows, t.rows);
    case Requeue(node, now) =>
      InvRows(s);
      RequeueSettles(s.rows, node, now);
      LapseKeepsKeys(s, node, now);
      SettlingKeepsInv(s, t);
      SettlesIsLater(s.rows, t.rows);
    case GrantLease(id, hash, expires) => GrantKeepsInv(s, t, id, hash, expires);
    case AcceptStart(id, hash, node, now) => StartKeepsInv(s, t, id, hash, node, now);
    case Execute(hash, c) => ExecuteKeepsInv(s, t, hash, c);
    case Record(hash, c, node, now) => RecordKeepsInv(s, t, hash, c, node, now);
    case _ => QuietStepKeepsInv(s, step, t);
  }

  lemma InvRows(s: State)
    requires Inv(s)
    ensures RowsOk(s.rows)
  {
  }

  lemma SettlesIsLater(before: Rows, after: Rows)
    requires Settles(before, after)
    ensures Later(before, after)
  {
  }

  lemma LapseKeepsKeys(s: State, node: nat, now: int)
    ensures forall id :: id in LapseAll(s.rows, node, now) || id in RequeueAll(s.rows, node, now) ==> id in s.rows
  {
  }

  /** The steps that leave the table alone. */
  lemma QuietStepKeepsInv(s: State, step: Step, t: State)
    requires Inv(s) && Next(s, step, t)
    requires step.Deliver? || step.LoseReply? || step.Confirm? || step.Crash?
    ensures Inv(t) && t.rows == s.rows && t.executed == s.executed
  {
    hide Kept, RowOk, RowLater, LeasesOf, Later, RowsOk, AcceptedOk, SameCompletion, ReportsOk, Confirmed;
    if step.Confirm? {
      ConfirmIsStored(s.rows, step.node, step.hash, step.c);
      OneStored(s.rows, s.confirmed, step.c);
    }
  }

  lemma ConfirmIsStored(rows: Rows, node: nat, hash: Hash, c: Completion)
    requires RowsOk(rows) && Confirmed(rows, node, hash, c)
    ensures Stored(rows, c)
  {
    HasRow(rows, c.execution);
  }

  // ---- Whole runs ------------------------------------------------------------------

  /** A run from the empty table: state i leads to state i + 1 by step i. */
  ghost predicate Behaviour(states: seq<State>, steps: seq<Step>) {
    && |states| == |steps| + 1 && Init(states[0])
    && forall i :: 0 <= i < |steps| ==> Next(states[i], steps[i], states[i + 1])
  }

  lemma {:induction false} InvAlways(states: seq<State>, steps: seq<Step>, i: nat)
    requires Behaviour(states, steps) && i < |states|
    ensures Inv(states[i])
  {
    if i > 0 {
      InvAlways(states, steps, i - 1);
      StepKeepsInv(states[i - 1], steps[i - 1], states[i]);
    }
  }

  lemma {:induction false} LaterAlways(states: seq<State>, steps: seq<Step>, i: nat, j: nat)
    requires Behaviour(states, steps) && i <= j < |states|
    ensures Later(states[i].rows, states[j].rows) && states[i].executed <= states[j].executed
    decreases j
  {
    hide Inv, Next, Later;
    if i < j {
      LaterAlways(states, steps, i, j - 1);
      InvAlways(states, steps, j - 1);
      StepKeepsInv(states[j - 1], steps[j - 1], states[j]);
      LaterTwice(states[i].rows, states[j - 1].rows, states[j].rows);
    } else {
      RowsAreLater(states[i].rows);
    }
  }

  /** At most one lease of an execution is ever accepted. */
  lemma OneLeaseAccepted(states: seq<State>, steps: seq<Step>, i: nat, a: Hash, b: Hash)
    requires Behaviour(states, steps) && i < |states| && a in states[i].accepted && b in states[i].accepted
    ensures a in states[i].issued && b in states[i].issued
    ensures states[i].issued[a] == states[i].issued[b] ==> a == b
  {
    hide Next;
    InvAlways(states, steps, i);
  }

  /** No command is run twice, by whatever workers. */
  lemma RunsAtMostOnce(states: seq<State>, steps: seq<Step>, i: nat, m: nat, n: nat)
    requires Behaviour(states, steps) && i < |states| && m < n < |states[i].executed|
    ensures states[i].executed[m] in states[i].issued && states[i].executed[n] in states[i].issued
    ensures states[i].issued[states[i].executed[m]] != states[i].issued[states[i].executed[n]]
  {
    hide Next;
    InvAlways(states, steps, i);
    OneLeaseAccepted(states, steps, i, states[i].executed[m], states[i].executed[n]);
  }

  /** Whatever reports are sent, by whomever: what is finished never changes, and every report accepted
      before or after says the same. */
  lemma OutcomeIsFinal(states: seq<State>, steps: seq<Step>, i: nat, j: nat, c: Completion, d: Completion)
    requires Behaviour(states, steps) && i <= j < |states|
    requires c in states[i].confirmed && d in states[j].confirmed && c.execution == d.execution
    ensures c == d
    ensures c.execution in states[i].rows && c.execution in states[j].rows
    ensures states[j].rows[c.execution] == states[i].rows[c.execution] && SameCompletion(states[i].rows[c.execution], c)
  {
    hide Next;
    InvAlways(states, steps, i);
    InvAlways(states, steps, j);
    LaterAlways(states, steps, i, j);
    assert Stored(states[i].rows, c) && Stored(states[j].rows, d);
  }

  /** An execution that failed because its lease ran out never accepts a report. */
  lemma LapsedAcceptsNothing(states: seq<State>, steps: seq<Step>, i: nat, j: nat, id: nat, c: Completion)
    requires Behaviour(states, steps) && i <= j < |states|
    requires id in states[i].rows && states[i].rows[id].status.Terminal() && states[i].rows[id].duration == None
    requires c in states[j].confirmed
    ensures c.execution != id
  {
    hide Next;
    InvAlways(states, steps, j);
    LaterAlways(states, steps, i, j);
    assert Stored(states[j].rows, c);
  }

  /** The attempts of a row count the leases handed out for it. */
  lemma AttemptsCountLeases(states: seq<State>, steps: seq<Step>, i: nat, id: nat)
    requires Behaviour(states, steps) && i < |states| && id in states[i].rows
    ensures states[i].rows[id].attempt == |LeasesOf(states[i].issued, id)|
    ensures RowOk(states[i].rows[id])
  {
    hide Next;
    InvAlways(states, steps, i);
  }

  /** The transaction of a claim is three steps of the protocol, or two if nothing waits. */
  lemma ClaimIsItsStatements(
    s: State, before: Table, after: Table, node: nat, hash: Hash, now: int, duration: int, locked: set<nat>,
    id: Option<nat>)
    requires s.rows == before.rows && hash !in s.issued
    requires Claimed(before, after, node, hash, now, duration, locked, id)
    ensures var lapsed := s.(rows := LapseAll(s.rows, node, now));
            var settled := lapsed.(rows := RequeueAll(lapsed.rows, node, now));
            && Next(s, Lapse(node, now), lapsed)
            && Next(lapsed, Requeue(node, now), settled)
            && match id
               case None => after.rows == settled.rows
               case Some(i) =>
                 Next(settled, GrantLease(i, hash, now + duration),
                      settled.(rows := after.rows, issued := s.issued[hash := i], inFlight := s.inFlight + {hash}))
  {
    hide LapseAll, RequeueAll, Claimed, Grant;
    ClaimIsStatements(before, after, node, hash, now, duration, locked, id);
  }

  // ---- Workers that report what they ran -----------------------------------------------

  /** The report of this step, if it is one, is the outcome of the run under its lease. */
  predicate Honest(s: State, step: Step) {
    match step
    case Record(hash, c, _, _) => hash in s.outcome && s.outcome[hash] == c
    case Confirm(hash, c, _) => hash in s.outcome && s.outcome[hash] == c
    case _ => true
  }

  /** A confirmed report came from the run under the lease its row holds. */
  predicate FromRun(rows: Rows, outcome: map<Hash, Completion>, c: Completion) {
    && c.execution in rows && rows[c.execution].token.Some?
    && rows[c.execution].token.value in outcome && outcome[rows[c.execution].token.value] == c
  }

  lemma HonestyKept(s: State, step: Step, t: State)
    requires Inv(s) && Next(s, step, t) && Honest(s, step)
    requires forall c :: c in s.confirmed ==> FromRun(s.rows, s.outcome, c)
    ensures forall c :: c in t.confirmed ==> FromRun(t.rows, t.outcome, c)
  {
    hide Inv, Later, StartedBy, RowsInserted, LapseAll, RequeueAll, Grant, SameCompletion;
    StepKeepsInv(s, step, t);
    forall c | c in t.confirmed ensures FromRun(t.rows, t.outcome, c) {
      if c in s.confirmed {
        ConfirmedStays(s, t, c);
        OutcomesStay(s, step, t, s.rows[c.execution].token.value);
      }
    }
  }

  lemma ConfirmedStays(s: State, t: State, c: Completion)
    requires Inv(s) && Later(s.rows, t.rows) && c in s.confirmed
    ensures c.execution in s.rows && c.execution in t.rows && t.rows[c.execution] == s.rows[c.execution]
  {
    hide TokensOk, AttemptsOk, AcceptedOk, ClaimsOk;
    assert Stored(s.rows, c);
  }

  lemma OutcomesStay(s: State, step: Step, t: State, hash: Hash)
    requires Inv(s) && Next(s, step, t) && hash in s.outcome
    ensures hash in t.outcome && t.outcome[hash] == s.outcome[hash]
  {
    hide TokensOk, AttemptsOk, AcceptedOk, ReportsOk, StartedBy, CompletedBy, RowsInserted, LapseAll, RequeueAll, Grant;
  }

  lemma {:induction false} HonestAlways(states: seq<State>, steps: seq<Step>, i: nat)
    requires Behaviour(states, steps) && i < |states| && forall k :: 0 <= k < i ==> Honest(states[k], steps[k])
    ensures forall c :: c in states[i].confirmed ==> FromRun(states[i].rows, states[i].outcome, c)
  {
    hide Inv, Next, Honest, FromRun;
    if i > 0 {
      HonestAlways(states, steps, i - 1);
      InvAlways(states, steps, i - 1);
      HonestyKept(states[i - 1], steps[i - 1], states[i]);
    }
  }

  /** If workers report only what they ran, an accepted report is what the one run of its execution produced. */
  lemma ReportIsOfTheRun(states: seq<State>, steps: seq<Step>, i: nat, c: Completion) returns (n: nat)
    requires Behaviour(states, steps) && i < |states| && forall k :: 0 <= k < i ==> Honest(states[k], steps[k])
    requires c in states[i].confirmed
    ensures n < |states[i].executed| && RunOf(states[i], n, c.execution)
      && states[i].outcome[states[i].executed[n]] == c
    ensures forall m :: 0 <= m < |states[i].executed| && RunOf(states[i], m, c.execution) ==> m == n
  {
    hide Next, Honest;
    InvAlways(states, steps, i);
    HonestAlways(states, steps, i);
    var s := states[i];
    assert FromRun(s.rows, s.outcome, c);
    n :| n < |s.executed| && s.executed[n] == s.rows[c.execution].token.value;
    forall m | 0 <= m < |s.executed| && RunOf(s, m, c.execution) ensures m == n {
      OneLeaseAccepted(states, steps, i, s.executed[m], s.executed[n]);
    }
  }

  /** The n-th command run was that of the execution. */
  predicate RunOf(s: State, n: nat, id: nat) {
    n < |s.executed| && s.executed[n] in s.issued && s.issued[s.executed[n]] == id && s.executed[n] in s.outcome
  }
}
