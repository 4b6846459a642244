/** The worker of an agent: it claims commands one at a time, asks to start
    each, runs it once, and reports the outcome until the lease is over. */
module CommandWorker {
  import opened Prelude
  import opened CommandTable
  import opened Commands
  import opened Executor
  import opened Utf8
  import P = CommandProtocol

  /** A claim as the client accepts it from the server. */
  datatype Lease = Lease(execution: nat, token: nat, timeout: nat, expires: int)

  datatype Reply = Accepted | Rejected | Errored

  datatype Call =
    | Claimed(lease: Lease)
    | Start(execution: nat, token: nat, reply: Reply)
    | Ran(execution: nat, token: nat, completion: Completion)
    | Report(token: nat, completion: Completion, reply: Reply)

  const DELAYS: seq<nat> := [1000, 2000, 4000, 8000, 15000]

  /** commandRetryDelay, in milliseconds */
  function RetryDelay(attempt: int): (r: nat)
    ensures 1000 <= r <= 15000
  {
    var n := if attempt < 0 then 0 else attempt;
    if n >= |DELAYS| then DELAYS[|DELAYS| - 1] else DELAYS[n]
  }

  /** The waits before attempt n. */
  function Waited(n: nat): nat {
    if n == 0 then 0 else Waited(n - 1) + RetryDelay(n - 1)
  }

  /** From the fifth on, every attempt waits a quarter of a minute. */
  lemma {:induction false} WaitedInTotal(n: nat)
    ensures Waited(n) == if n <= 4 then [0, 1000, 3000, 7000, 15000][n] else 15000 * (n - 3)
  {
    if n > 0 {
      WaitedInTotal(n - 1);
    }
  }

  /** Only the last of the replies is not a failure that is tried again. */
  predicate Tried(replies: seq<Reply>) {
    replies != [] && forall i :: 0 <= i < |replies| - 1 ==> replies[i] == Errored
  }

  function Last(replies: seq<Reply>): Reply
    requires replies != []
  {
    replies[|replies| - 1]
  }

  function Starts(lease: Lease, replies: seq<Reply>): seq<Call> {
    if replies == [] then []
    else Starts(lease, replies[..|replies| - 1]) + [Start(lease.execution, lease.token, replies[|replies| - 1])]
  }

  function Reports(lease: Lease, completion: Completion, replies: seq<Reply>): seq<Call> {
    if replies == [] then []
    else
      Reports(lease, completion, replies[..|replies| - 1]) +
      [Report(lease.token, completion, replies[|replies| - 1])]
  }

  /** The calls of one turn: the claim, the requests to start it, and if one was accepted, the run and its reports. */
  function TurnOf(lease: Lease, starts: seq<Reply>, ran: Option<Completion>, reports: seq<Reply>): seq<Call> {
    [Claimed(lease)] + Starts(lease, starts) +
    match ran
    case None => []
    case Some(c) => [Ran(lease.execution, lease.token, c)] + Reports(lease, c, reports)
  }

  ghost predicate Turn(lease: Lease, calls: seq<Call>) {
    exists starts, ran, reports :: IsTurnOf(lease, calls, starts, ran, reports)
  }

  predicate IsTurnOf(lease: Lease, calls: seq<Call>, starts: seq<Reply>, ran: Option<Completion>, reports: seq<Reply>) {
    && Tried(starts) && (ran.Some? <==> Last(starts) == Accepted) && (ran.Some? ==> Tried(reports))
    && calls == TurnOf(lease, starts, ran, reports)
  }

  lemma IsTurn(lease: Lease, starts: seq<Reply>, ran: Option<Completion>, reports: seq<Reply>)
    requires Tried(starts) && (ran.Some? <==> Last(starts) == Accepted) && (ran.Some? ==> Tried(reports))
    ensures Turn(lease, TurnOf(lease, starts, ran, reports))
  {
    assert IsTurnOf(lease, TurnOf(lease, starts, ran, reports), starts, ran, reports);
  }

  function AllTurns(turns: seq<seq<Call>>): seq<Call> {
    if turns == [] then [] else AllTurns(turns[..|turns| - 1]) + turns[|turns| - 1]
  }

  lemma OneTurnMore(turns: seq<seq<Call>>, calls: seq<Call>)
    ensures AllTurns(turns + [calls]) == AllTurns(turns) + calls
  {
    assert (turns + [calls])[..|turns|] == turns;
  }

  lemma BeforeTheFirst(lease: Lease)
    ensures Starts(lease, []) == [] && (forall c :: Reports(lease, c, []) == []) && Waited(0) == 0
  {
  }

  lemma OneStartMore(lease: Lease, replies: seq<Reply>, reply: Reply)
    ensures Starts(lease, replies + [reply]) == Starts(lease, replies) + [Start(lease.execution, lease.token, reply)]
  {
    assert (replies + [reply])[..|replies|] == replies;
  }

  lemma OneReportMore(lease: Lease, completion: Completion, replies: seq<Reply>, reply: Reply)
    ensures Reports(lease, completion, replies + [reply]) ==
            Reports(lease, completion, replies) + [Report(lease.token, completion, reply)]
  {
    assert (replies + [reply])[..|replies|] == replies;
  }

  lemma OneWaitMore(n: nat)
    ensures Waited(n + 1) == Waited(n) + RetryDelay(n)
  {
  }

  // ---- What a worker may do next ---------------------------------------------------

  datatype Phase =
    | Idle
    | Holding(lease: Lease, accepted: bool)
    | Done(lease: Lease, completion: Completion)

  /** The start of the claim it holds may be asked for, the command run once that was accepted, and the
      outcome of that run reported. */
  predicate Allowed(phase: Phase, call: Call) {
    match call
    case Claimed(_) => true
    case Start(execution, token, _) =>
      phase.Holding? && !phase.accepted && phase.lease.execution == execution && phase.lease.token == token
    case Ran(execution, token, c) =>
      && phase.Holding? && phase.accepted && phase.lease.execution == execution && phase.lease.token == token
      && c.execution == execution && c.status.Terminal()
    case Report(token, c, _) =>
      phase.Done? && phase.lease.token == token && phase.completion == c
  }

  function After(phase: Phase, call: Call): Phase {
    match call
    case Claimed(lease) => Holding(lease, false)
    case Start(_, _, reply) => if phase.Holding? && reply == Accepted then phase.(accepted := true) else phase
    case Ran(_, _, c) => if phase.Holding? then Done(phase.lease, c) else phase
    case Report(_, _, _) => phase
  }

  function PhaseOf(log: seq<Call>): Phase {
    if log == [] then Idle else After(PhaseOf(log[..|log| - 1]), log[|log| - 1])
  }

  /** Every call was allowed when it was made. */
  predicate Guarded(log: seq<Call>) {
    log == [] || (Guarded(log[..|log| - 1]) && Allowed(PhaseOf(log[..|log| - 1]), log[|log| - 1]))
  }

  lemma OneCallMore(log: seq<Call>, call: Call)
    requires Guarded(log) && Allowed(PhaseOf(log), call)
    ensures Guarded(log + [call]) && PhaseOf(log + [call]) == After(PhaseOf(log), call)
  {
    assert (log + [call])[..|log|] == log;
  }

  class Worker {
    var now: int           // the clock of the agent
    var cancelled: bool    // its context is done
    ghost var log: seq<Call>
    ghost var granted: seq<Lease>    // the claims the server handed out to it

    constructor ()
      ensures log == [] && granted == []
    {
      now, cancelled, log, granted := 0, false, [], [];
    }

    /** The request for a claim. */
    method Claim() returns (claim: Option<Lease>, failed: bool)
      modifies this`now, this`cancelled, this`granted
      ensures now >= old(now) && (old(cancelled) ==> cancelled)
      ensures granted == old(granted) + if !failed && claim.Some? then [claim.value] else []
    {
      Pass();
      claim, failed := *, *;
      if !failed && claim.Some? {
        granted := granted + [claim.value];
      }
    }

    /** A request takes some time, during which the agent may be stopped. */
    method Pass()
      modifies this`now, this`cancelled
      ensures now >= old(now) && (old(cancelled) ==> cancelled)
    {
      var elapsed: nat, stopped: bool := *, *;
      now := now + elapsed;
      cancelled := cancelled || stopped;
    }

    method Wait(delay: nat) returns (ok: bool)
      modifies this`now, this`cancelled
      ensures now >= old(now) && (old(cancelled) ==> cancelled)
      ensures ok ==> now >= old(now) + delay
      ensures !ok ==> cancelled
    {
      Pass();
      ok := !cancelled;
      if ok {
        now := now + delay;
      }
    }

    /** worker.start: it gives up when the lease is rejected, the agent stops, or the lease is over. */
    method AskStart(lease: Lease) returns (ok: bool, ghost replies: seq<Reply>)
      requires Guarded(log) && PhaseOf(log) == Holding(lease, false)
      modifies this`now, this`cancelled, this`log
      ensures Guarded(log) && PhaseOf(log) == Holding(lease, ok)
      ensures Tried(replies) && log == old(log) + Starts(lease, replies)
      ensures ok <==> Last(replies) == Accepted
      ensures ok || Last(replies) == Rejected || cancelled || now >= lease.expires
      ensures |replies| > 1 ==> old(now) + Waited(|replies| - 2) < lease.expires
      ensures now >= old(now) + Waited(|replies| - 1)
    {
      hide Guarded, PhaseOf, RetryDelay, DELAYS, Starts, Waited;
      BeforeTheFirst(lease);
      var attempt := 0;
      replies, ok := [], false;
      while true
        invariant |replies| == attempt && log == old(log) + Starts(lease, replies)
        invariant Guarded(log) && PhaseOf(log) == Holding(lease, false)
        invariant forall i :: 0 <= i < |replies| ==> replies[i] == Errored
        invariant now >= old(now) + Waited(attempt)
        invariant attempt > 0 ==> old(now) + Waited(attempt - 1) < lease.expires
        decreases lease.expires - now
      {
        var reply: Reply := *;
        Pass();
        OneStartMore(lease, replies, reply);
        OneCallMore(log, Start(lease.execution, lease.token, reply));
        log := log + [Start(lease.execution, lease.token, reply)];
        replies := replies + [reply];
        if reply == Accepted {
          ok := true;
          return;
        }
        if reply == Rejected || cancelled || now >= lease.expires {
          return;
        }
        var waited := Wait(RetryDelay(attempt));
        if !waited {
          return;
        }
        OneWaitMore(attempt);
        attempt := attempt + 1;
      }
    }

    /** worker.complete: the same outcome is reported until it is accepted, rejected, or the lease is over. */
    method Complete(lease: Lease, completion: Completion) returns (ghost replies: seq<Reply>)
      requires Guarded(log) && PhaseOf(log) == Done(lease, completion)
      modifies this`now, this`cancelled, this`log
      ensures Guarded(log)
      ensures Tried(replies) && log == old(log) + Reports(lease, completion, replies)
      ensures Last(replies) == Accepted || Last(replies) == Rejected || cancelled || now >= lease.expires
      ensures |replies| > 1 ==> old(now) + Waited(|replies| - 2) < lease.expires
      ensures now >= old(now) + Waited(|replies| - 1)
    {
      hide Guarded, PhaseOf, RetryDelay, DELAYS, Reports, Waited;
      BeforeTheFirst(lease);
      var attempt := 0;
      replies := [];
      while true
        invariant |replies| == attempt && log == old(log) + Reports(lease, completion, replies)
        invariant Guarded(log) && PhaseOf(log) == Done(lease, completion)
        invariant forall i :: 0 <= i < |replies| ==> replies[i] == Errored
        invariant now >= old(now) + Waited(attempt)
        invariant attempt > 0 ==> old(now) + Waited(attempt - 1) < lease.expires
        decreases lease.expires - now
      {
        var reply: Reply := *;
        Pass();
        OneReportMore(lease, completion, replies, reply);
        OneCallMore(log, Report(lease.token, completion, reply));
        log := log + [Report(lease.token, completion, reply)];
        replies := replies + [reply];
        if reply == Accepted {
          return;
        }
        if reply == Rejected || cancelled || now >= lease.expires {
          return;
        }
        var waited := Wait(RetryDelay(attempt));
        if !waited {
          return;
        }
        OneWaitMore(attempt);
        attempt := attempt + 1;
      }
    }

    /** The command is run by the executor of this repository, or by any other. */
    method RunCommand(lease: Lease, ours: bool) returns (c: Completion, ghost produced: Completion)
      ensures c.execution == lease.execution && c.status.Terminal()
      // what the executor produced is not touched, unless its status is none of an outcome
      ensures produced.status.Terminal() ==> c == produced.(execution := lease.execution)
      ensures !produced.status.Terminal() ==>
                c == produced.(execution := lease.execution, status := CommandTable.Failed,
                               error := Ascii("command executor returned an invalid status"))
      ensures ours && lease.execution != 0 && lease.token != 0 ==> ValidCompletion(c) && ValidPayload(c, lease.token)
    {
      hide Reportable, Utf8.Valid, ValidCompletion, ValidPayload, Captured, Explains, Ascii;
      if ours {
        var chunks: seq<Bytes>, run: Run, invalid: Option<Bytes>, available: bool := *, *, *, *;
        var exitCode := if Int64(run.exitCode) then run.exitCode else -1;
        c := Execute(lease.timeout, if lease.timeout > 1800 && invalid.None? then Some([]) else invalid, available,
                     chunks, run.(exitCode := exitCode));
      } else {
        c := *;
        produced := c;
        if !c.status.Terminal() {
          c := c.(status := CommandTable.Failed, error := Ascii("command executor returned an invalid status"));
        }
      }
      if ours && lease.execution != 0 && lease.token != 0 {
        ReportIsAccepted(c, lease.execution, lease.token);
      }
      if ours {
        produced := c;
      }
      c := c.(execution := lease.execution);
    }

    /** One turn of worker.Run after a claim: the command runs exactly if a start request was accepted,
        and only then is its outcome reported. */
    method Serve(lease: Lease, ours: bool)
      returns (ghost starts: seq<Reply>, ghost ran: Option<Completion>, ghost reports: seq<Reply>)
      requires Guarded(log)
      modifies this`now, this`cancelled, this`log
      ensures Guarded(log) && Tried(starts) && (ran.Some? <==> Last(starts) == Accepted)
      ensures ran.Some? ==> Tried(reports)
      ensures log == old(log) + TurnOf(lease, starts, ran, reports)
      ensures now >= old(now)
      ensures ran.Some? && ours && lease.execution != 0 && lease.token != 0 ==> ValidPayload(ran.value, lease.token)
    {
      hide ValidCompletion, ValidPayload, Guarded, PhaseOf, Ascii, Starts, Reports, Waited, Tried;
      OneCallMore(log, Claimed(lease));
      log := log + [Claimed(lease)];
      reports, ran := [], None;
      var ok;
      ok, starts := AskStart(lease);
      if !ok {
        return;
      }
      var c;
      ghost var produced;
      c, produced := RunCommand(lease, ours);
      ran := Some(c);
      OneCallMore(log, Ran(lease.execution, lease.token, c));
      log := log + [Ran(lease.execution, lease.token, c)];
      reports := Complete(lease, c);
    }

    /** worker.Run: every claim the server handed out is served, one after the other, and the agent waits five
        seconds after a request for one that failed. */
    method Run(ours: bool) returns (ghost turns: seq<seq<Call>>, ghost failures: nat)
      requires Guarded(log)
      modifies this
      ensures Guarded(log)
      ensures |granted| == |old(granted)| + |turns| && log == old(log) + AllTurns(turns)
      ensures forall i :: 0 <= i < |turns| ==> Turn(granted[|old(granted)| + i], turns[i])
      ensures now >= old(now) + 5000 * failures
    {
      hide Guarded, PhaseOf, Turn;
      turns, failures := [], 0;
      ghost var n := |granted|;
      var left: nat := *;
      while left > 0 && !cancelled
        invariant Guarded(log) && |granted| == n + |turns| && log == old(log) + AllTurns(turns)
        invariant forall i :: 0 <= i < |turns| ==> Turn(granted[n + i], turns[i])
        invariant now >= old(now) + 5000 * failures
      {
        left := left - 1;
        var claim, failed := Claim();
        if failed {
          if !cancelled {
            var waited := Wait(5000);
            failures := failures + if waited then 1 else 0;
          }
        } else if claim.Some? {
          ghost var starts, ran, reports := Serve(claim.value, ours);
          IsTurn(claim.value, starts, ran, reports);
          ghost var calls := TurnOf(claim.value, starts, ran, reports);
          OneTurnMore(turns, calls);
          turns := turns + [calls];
        }
      }
    }
  }

  // ---- How often a command runs -----------------------------------------------------

  function RunsOf(log: seq<Call>, token: nat): nat {
    if log == [] then 0
    else RunsOf(log[..|log| - 1], token) + if log[|log| - 1].Ran? && log[|log| - 1].token == token then 1 else 0
  }

  function ClaimsOf(log: seq<Call>, token: nat): nat {
    if log == [] then 0
    else
      ClaimsOf(log[..|log| - 1], token) +
      if log[|log| - 1].Claimed? && log[|log| - 1].lease.token == token then 1 else 0
  }

  /** A worker runs the command of a claim at most once, however often it asked to start it. */
  lemma {:induction false} OneRunPerClaim(log: seq<Call>, token: nat)
    requires Guarded(log)
    ensures var phase := PhaseOf(log);
            RunsOf(log, token) + (if phase.Holding? && phase.lease.token == token then 1 else 0) <= ClaimsOf(log, token)
  {
    if log != [] {
      OneRunPerClaim(log[..|log| - 1], token);
    }
  }

  // ---- The worker in the protocol -----------------------------------------------------

  /** What a worker believes is so. */
  predicate Matches(phase: Phase, s: P.State) {
    match phase
    case Idle => true
    case Holding(lease, accepted) =>
      && lease.token in s.held && lease.token in s.issued && s.issued[lease.token] == lease.execution
      && (accepted ==> lease.token in s.accepted)
    case Done(lease, c) => lease.token in s.outcome && s.outcome[lease.token] == c
  }

  /** The replies are those of the server: a claim is on its way to this worker, and a start that is
      reported accepted was accepted. */
  predicate Served(call: Call, s: P.State) {
    match call
    case Claimed(lease) =>
      lease.token in s.inFlight && lease.token in s.issued && s.issued[lease.token] == lease.execution
    case Start(_, token, reply) => reply == Accepted ==> token in s.accepted
    case _ => true
  }

  /** Every call of a guarded log is a step of the protocol that is enabled, or an honest report: a claim is a
      delivery, a run is an execution. */
  lemma CallIsAStep(phase: Phase, call: Call, s: P.State) returns (t: P.State)
    requires Matches(phase, s) && Allowed(phase, call) && Served(call, s)
    ensures Matches(After(phase, call), t)
    ensures match call
            case Claimed(lease) => P.Next(s, P.Deliver(lease.token), t)
            case Start(_, _, _) => t == s
            case Ran(_, token, c) => P.Next(s, P.Execute(token, c), t)
            case Report(token, c, _) =>
              && t == s
              && (forall node, now :: P.Honest(s, P.Record(token, c, node, now)))
              && (forall node :: P.Honest(s, P.Confirm(token, c, node)))
  {
    t := match call
      case Claimed(lease) => s.(inFlight := s.inFlight - {lease.token}, held := s.held + {lease.token})
      case Ran(_, token, c) =>
        s.(held := s.held - {token}, executed := s.executed + [token], outcome := s.outcome[token := c])
      case _ => s;
  }

  /** Meanwhile the others may do whatever they do, as long as the worker lives and its claim is its own. */
  lemma OthersKeepMatch(phase: Phase, s: P.State, step: P.Step, t: P.State)
    requires P.Inv(s) && P.Next(s, step, t) && Matches(phase, s)
    requires step.Crash? && phase.Holding? ==> phase.lease.token !in step.lost
    requires step.Execute? && phase.Holding? ==> phase.lease.token != step.hash
    ensures Matches(phase, t)
  {
    hide P.Inv, StartedBy, CompletedBy, RowsInserted, LapseAll, RequeueAll, Grant;
    if phase.Done? {
      P.OutcomesStay(s, step, t, phase.lease.token);
    }
  }
}
