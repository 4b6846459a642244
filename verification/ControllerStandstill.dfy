/** When the configuration stands still. An approved pairing does not ask whether an update helper is running, and
    Enroll and StartPairing ask for a shutdown once and early. So in both cases something can still move; this is
    exactly what, and exactly when. */
module ControllerStandstill {
  import opened Prelude
  import opened Controller
  import opened ControllerProtocol
  import P = Pairing

  /** Neither the configuration in use nor the one on file changes. */
  predicate Stands(w: World, v: World) {
    v.core.generation == w.core.generation && v.core.config == w.core.config && v.disk == w.disk
  }

  // ---- What is in use is on file -----------------------------------------------------------

  /** The configuration a thread has saved is still on file when it comes to switch. */
  predicate Saved(thread: Thread, disk: Config) {
    match thread
    case Switching(config, saved) => saved ==> disk == config
    case Approving(_, ticket, node, saved) => saved ==> disk == Enrolled(node, ticket.credential)
    case _ => true
  }

  ghost predicate SavedOk(w: World) {
    forall t :: t in w.threads ==> Saved(w.threads[t], w.disk)
  }

  lemma SavedKeptHere(w: World, step: Step, v: World, ttl: int)
    requires GateOk(w.gate, w.threads) && SavedOk(w) && Next(w, step, v, ttl) && !OfServer(step)
    ensures SavedOk(v)
  {
    hide Refreshed, Admit, MayLaunch, Activated, Invalidated, Booted, Launched, Landed, TicketCurrent, PairingEnded,
      UpdatePending;
  }

  lemma {:induction false} SavedAlways(worlds: seq<World>, steps: seq<Step>, ttl: int, i: nat)
    requires Behaviour(worlds, steps, ttl) && i < |worlds|
    ensures SavedOk(worlds[i])
  {
    hide Next, GateOk, RestsOk, FlightsOk, BegunOk, LaunchesOk, LauncherOk, ConfigsOk, ServerOk;
    if i > 0 {
      SavedAlways(worlds, steps, ttl, i - 1);
      InvAlways(worlds, steps, ttl, i - 1);
      if OfServer(steps[i - 1]) {
        ServerStep(worlds[i - 1], steps[i - 1], worlds[i], ttl);
      } else {
        SavedKeptHere(worlds[i - 1], steps[i - 1], worlds[i], ttl);
      }
    }
  }

  /** Every configuration that comes into use is the one on file, and one that awaits an approval is polled for. */
  lemma InUseIsOnFile(worlds: seq<World>, steps: seq<Step>, ttl: int, i: nat)
    requires Behaviour(worlds, steps, ttl) && i < |steps|
    requires steps[i].EndSwitch? || steps[i].EndApproval? || (steps[i].EndBoot? && steps[i].readable)
    ensures worlds[i + 1].core.config == worlds[i + 1].disk == worlds[i].disk
    ensures steps[i].EndSwitch? && worlds[i].disk.Awaiting? ==>
              At(worlds[i + 1], steps[i].poll, Polling(worlds[i + 1].core.generation, worlds[i].disk.ticket))
    ensures steps[i].EndBoot? && worlds[i].disk.Awaiting? && worlds[i].disk.ticket.expires > worlds[i].now ==>
              At(worlds[i + 1], steps[i].poll, Polling(worlds[i + 1].core.generation, worlds[i].disk.ticket))
  {
    hide GateOk, FlightsOk, BegunOk, LaunchesOk, LauncherOk, ConfigsOk, ServerOk, P.ApprovedAs, P.LapseAll;
    InvAlways(worlds, steps, ttl, i);
    SavedAlways(worlds, steps, ttl, i);
    assert Next(worlds[i], steps[i], worlds[i + 1], ttl);
    assert Rests(worlds[i].threads[steps[i].t], worlds[i].core);
    assert Saved(worlds[i].threads[steps[i].t], worlds[i].disk);
  }

  // ---- While an update helper may run --------------------------------------------------

  lemma MovedUnderPending(w: World, step: Step, v: World, ttl: int)
    requires RestsOk(w.threads, w.core) && Next(w, step, v, ttl) && !step.Restart? && !OfServer(step)
    requires UpdatePending(w.core, w.now, ttl)
    ensures v.core.generation != w.core.generation <==> step.EndApproval?
    ensures v.core.config != w.core.config <==> step.EndApproval?
    ensures v.disk != w.disk ==> step.SaveApproval?
  {
    hide Admit, MayLaunch;
    assert step.EndSwitch? || step.SaveSwitch? || step.EndBoot? || step.EndApproval? ==>
        Rests(w.threads[step.t], w.core);
  }

  /** While an update helper may run, the configuration is switched by the end of an approval, always and by nothing
      else, and the file is written by its save. */
  lemma OnlyApprovalsMove(worlds: seq<World>, steps: seq<Step>, ttl: int, i: nat)
    requires Behaviour(worlds, steps, ttl) && i < |steps| && !steps[i].Restart?
    requires UpdatePending(worlds[i].core, worlds[i].now, ttl)
    ensures worlds[i + 1].core.generation != worlds[i].core.generation <==> steps[i].EndApproval?
    ensures worlds[i + 1].core.config != worlds[i].core.config <==> steps[i].EndApproval?
    ensures worlds[i + 1].disk != worlds[i].disk ==> steps[i].SaveApproval?
  {
    hide Next, GateOk, RestsOk, FlightsOk, BegunOk, LaunchesOk, LauncherOk, ConfigsOk, ServerOk;
    InvAlways(worlds, steps, ttl, i);
    if OfServer(steps[i]) {
      ServerStep(worlds[i], steps[i], worlds[i + 1], ttl);
    } else {
      MovedUnderPending(worlds[i], steps[i], worlds[i + 1], ttl);
    }
  }

  /** The service asks for a launch only after its updater found a newer release on the server of the configuration
      the check was begun for, and only an enrolled configuration names a server. */
  predicate AsksItsServer(w: World, step: Step) {
    step.Authorize? && step.t in w.threads && w.threads[step.t].Checking? ==>
      var id := w.threads[step.t].flight.id;
      id < |w.begun| && w.begun[id].Enrolled?
  }

  /** A helper that may run, or is about to be launched, was launched by an enrolled agent. */
  ghost predicate LaunchedEnrolled(w: World) {
    && (w.core.pending.Some? ==> w.core.config.Enrolled?)
    && (forall t :: t in w.threads && w.threads[t].Launching? ==> w.core.config.Enrolled?)
  }

  lemma LaunchGranted(w: World, t: nat, v: World, ttl: int)
    requires BegunOk(w.threads, w.core, w.begun) && LaunchedEnrolled(w)
    requires Next(w, Authorize(t), v, ttl) && AsksItsServer(w, Authorize(t))
    ensures LaunchedEnrolled(v)
  {
  }

  lemma EnrolledKeptHere(w: World, step: Step, v: World, ttl: int)
    requires GateOk(w.gate, w.threads) && RestsOk(w.threads, w.core) && LaunchedEnrolled(w)
    requires Next(w, step, v, ttl) && !OfServer(step) && !step.Authorize?
    ensures LaunchedEnrolled(v)
  {
    hide Admit, MayLaunch, TicketCurrent, UpdatePending;
  }

  lemma EnrolledKept(w: World, step: Step, v: World, ttl: int)
    requires GateOk(w.gate, w.threads) && RestsOk(w.threads, w.core) && BegunOk(w.threads, w.core, w.begun)
    requires LaunchedEnrolled(w) && Next(w, step, v, ttl) && AsksItsServer(w, step)
    ensures LaunchedEnrolled(v)
  {
    hide Next, GateOk, RestsOk, BegunOk;
    if OfServer(step) {
      ServerStep(w, step, v, ttl);
    } else if step.Authorize? {
      LaunchGranted(w, step.t, v, ttl);
    } else {
      EnrolledKeptHere(w, step, v, ttl);
    }
  }

  lemma {:induction false} LaunchedEnrolledAlways(worlds: seq<World>, steps: seq<Step>, ttl: int, i: nat)
    requires Behaviour(worlds, steps, ttl) && i < |worlds|
    requires forall k :: 0 <= k < i ==> AsksItsServer(worlds[k], steps[k])
    ensures LaunchedEnrolled(worlds[i])
  {
    hide Next, GateOk, RestsOk, FlightsOk, BegunOk, LaunchesOk, LauncherOk, ConfigsOk, ServerOk, AsksItsServer;
    if i > 0 {
      LaunchedEnrolledAlways(worlds, steps, ttl, i - 1);
      InvAlways(worlds, steps, ttl, i - 1);
      EnrolledKept(worlds[i - 1], steps[i - 1], worlds[i], ttl);
    }
  }

  /** If checks ask the server they were begun for, nothing at all is switched or saved while a helper may run. */
  lemma NothingMovesUnderPending(worlds: seq<World>, steps: seq<Step>, ttl: int, i: nat)
    requires Behaviour(worlds, steps, ttl) && i < |steps| && !steps[i].Restart?
    requires forall k :: 0 <= k < i ==> AsksItsServer(worlds[k], steps[k])
    requires UpdatePending(worlds[i].core, worlds[i].now, ttl)
    ensures Stands(worlds[i], worlds[i + 1])
  {
    hide GateOk, FlightsOk, BegunOk, LaunchesOk, LauncherOk, ConfigsOk, ServerOk, AsksItsServer, P.ApprovedAs,
      P.LapseAll;
    LaunchedEnrolledAlways(worlds, steps, ttl, i);
    InvAlways(worlds, steps, ttl, i);
    OnlyApprovalsMove(worlds, steps, ttl, i);
    NobodyIsApproved(worlds[i], steps[i], worlds[i + 1], ttl);
  }

  lemma NobodyIsApproved(w: World, step: Step, v: World, ttl: int)
    requires RestsOk(w.threads, w.core) && Next(w, step, v, ttl) && w.core.config.Enrolled?
    ensures !step.SaveApproval? && !step.EndApproval?
  {
    hide P.ApprovedAs, P.LapseAll;
    assert step.SaveApproval? || step.EndApproval? ==> Rests(w.threads[step.t], w.core);
  }

  // ---- Whether an approval can overtake a helper --------------------------------------------

  /** Some steps one after the other, without a restart of the agent. */
  ghost predicate Goes(run: seq<World>, steps: seq<Step>, ttl: int) {
    && |run| == |steps| + 1
    && forall k :: 0 <= k < |steps| ==> Next(run[k], steps[k], run[k + 1], ttl) && !steps[k].Restart?
  }

  /** A helper may be running all the while, and the last step switches the configuration. */
  ghost predicate Overtakes(run: seq<World>, steps: seq<Step>, ttl: int) {
    && Goes(run, steps, ttl) && steps != []
    && (forall k :: 0 <= k < |steps| ==> UpdatePending(run[k].core, run[k].now, ttl))
    && run[|steps|].core.generation != run[|steps| - 1].core.generation
  }

  ghost predicate OvertakesFrom(w: World, run: seq<World>, steps: seq<Step>, ttl: int) {
    Overtakes(run, steps, ttl) && run[0] == w
  }

  /** The server has answered, or may still answer, that the request of the ticket is approved. */
  ghost predicate MayBeApproved(db: P.Database, replies: set<Reply>, ticket: Ticket) {
    || (exists node :: Reply(ticket.id, P.Digest(ticket.credential), node) in replies)
    || ticket.id !in db.requests
    || (db.requests[ticket.id].hash == P.Digest(ticket.credential)
        && (db.requests[ticket.id].state == P.Pending || db.requests[ticket.id].state == P.Approved))
  }

  /** An approval is under way, or its answer may come to a poll of the current ticket. */
  ghost predicate Approachable(w: World, thread: Thread) {
    || thread.Approving?
    || (thread.Polling? && TicketCurrent(w.core, thread.generation, thread.ticket.id)
        && MayBeApproved(w.db, w.replies, thread.ticket))
  }

  ghost predicate Overtakable(w: World) {
    exists t :: t in w.threads && Approachable(w, w.threads[t])
  }

  lemma Prepend(w: World, step: Step, run: seq<World>, steps: seq<Step>, ttl: int)
    requires |run| == |steps| + 1 && Next(w, step, run[0], ttl) && !step.Restart?
    ensures Goes(run, steps, ttl) ==> Goes([w] + run, [step] + steps, ttl)
    ensures Overtakes(run, steps, ttl) && UpdatePending(w.core, w.now, ttl) ==>
              Overtakes([w] + run, [step] + steps, ttl)
  {
    hide Next;
    var (all, taken) := ([w] + run, [step] + steps);
    if Goes(run, steps, ttl) {
      forall k | 0 <= k < |taken| ensures Next(all[k], taken[k], all[k + 1], ttl) && !taken[k].Restart? {
        if k > 0 {
          assert Next(run[k - 1], steps[k - 1], run[k], ttl);
        }
      }
    }
    if Overtakes(run, steps, ttl) && UpdatePending(w.core, w.now, ttl) {
      forall k | 0 <= k < |taken| ensures UpdatePending(all[k].core, all[k].now, ttl) {
        if k > 0 {
          assert all[k] == run[k - 1];
        }
      }
    }
  }

  lemma OneStep(w: World, step: Step, v: World, ttl: int)
    requires Next(w, step, v, ttl) && !step.Restart?
    ensures Goes([w, v], [step], ttl)
  {
    hide Next;
  }

  lemma SavedOvertakes(w: World, t: nat, ttl: int) returns (run: seq<World>, steps: seq<Step>)
    requires RestsOk(w.threads, w.core) && UpdatePending(w.core, w.now, ttl)
    requires t in w.threads && w.threads[t].Approving? && w.threads[t].saved
    ensures Overtakes(run, steps, ttl) && run[0] == w
  {
    assert Rests(w.threads[t], w.core);
    var config := Enrolled(w.threads[t].node, w.threads[t].ticket.credential);
    var v := Leaving(w, t).(core := Activated(w.core, config));
    OneStep(w, EndApproval(t), v, ttl);
    run, steps := [w, v], [EndApproval(t)];
  }

  lemma ApprovingOvertakes(w: World, t: nat, ttl: int) returns (run: seq<World>, steps: seq<Step>)
    requires RestsOk(w.threads, w.core) && UpdatePending(w.core, w.now, ttl)
    requires t in w.threads && w.threads[t].Approving?
    ensures Overtakes(run, steps, ttl) && run[0] == w
  {
    if w.threads[t].saved {
      run, steps := SavedOvertakes(w, t, ttl);
    } else {
      var Approving(generation, ticket, node, _) := w.threads[t];
      var saved := w.threads[t := Approving(generation, ticket, node, true)];
      var v := w.(disk := Enrolled(node, ticket.credential), threads := saved);
      assert Next(w, SaveApproval(t, true, true), v, ttl);
      assert Rests(w.threads[t], w.core);
      run, steps := SavedOvertakes(v, t, ttl);
      Prepend(w, SaveApproval(t, true, true), run, steps, ttl);
      run, steps := [w] + run, [SaveApproval(t, true, true)] + steps;
    }
  }

  /** The poll gets its answer. */
  lemma AnsweredOvertakes(w: World, t: nat, node: nat, ttl: int) returns (run: seq<World>, steps: seq<Step>)
    requires RestsOk(w.threads, w.core) && UpdatePending(w.core, w.now, ttl) && w.gate.None?
    requires t in w.threads && w.threads[t].Polling?
    requires TicketCurrent(w.core, w.threads[t].generation, w.threads[t].ticket.id)
    requires Reply(w.threads[t].ticket.id, P.Digest(w.threads[t].ticket.credential), node) in w.replies
    ensures Overtakes(run, steps, ttl) && run[0] == w
  {
    var v := Taking(w, t, Approving(w.threads[t].generation, w.threads[t].ticket, node, false));
    assert Next(w, BeginApproval(t, node), v, ttl);
    run, steps := ApprovingOvertakes(v, t, ttl);
    Prepend(w, BeginApproval(t, node), run, steps, ttl);
    run, steps := [w] + run, [BeginApproval(t, node)] + steps;
  }

  /** Its request is approved. */
  lemma ApprovedOvertakes(w: World, t: nat, ttl: int) returns (run: seq<World>, steps: seq<Step>)
    requires RestsOk(w.threads, w.core) && UpdatePending(w.core, w.now, ttl) && w.gate.None?
    requires t in w.threads && w.threads[t].Polling?
    requires TicketCurrent(w.core, w.threads[t].generation, w.threads[t].ticket.id)
    requires w.threads[t].ticket.id in w.db.requests
    requires var request := w.db.requests[w.threads[t].ticket.id];
             request.hash == P.Digest(w.threads[t].ticket.credential) && request.node.Some?
    ensures Overtakes(run, steps, ttl) && run[0] == w
  {
    var ticket := w.threads[t].ticket;
    var node := w.db.requests[ticket.id].node.value;
    var hash := P.Digest(ticket.credential);
    var v := w.(replies := w.replies + {Reply(ticket.id, hash, node)});
    assert Next(w, Answer(ticket.id, hash, node), v, ttl);
    run, steps := AnsweredOvertakes(v, t, node, ttl);
    Prepend(w, Answer(ticket.id, hash, node), run, steps, ttl);
    run, steps := [w] + run, [Answer(ticket.id, hash, node)] + steps;
  }

  lemma FreshNumber(used: set<nat>) returns (n: nat)
    ensures n !in used
  {
    n := 0;
    var rest := used;
    while rest != {}
      invariant forall m :: m in used && m !in rest ==> m < n
      decreases rest
    {
      var m :| m in rest;
      rest := rest - {m};
      n := if m < n then n else m + 1;
    }
  }

  /** The machine of a pending request has one node, an old one or a new one. */
  lemma NodeOf(db: P.Database, id: nat, at: int) returns (node: nat, after: P.Database)
    requires id in db.requests && db.requests[id].state == P.Pending && at < db.requests[id].expiresAt
    ensures P.ApprovedAs(db, after, id, node, 0, "", at)
  {
    var request := db.requests[id];
    var createdAt := at;
    if n :| n in db.nodes && db.nodes[n].details.machine == request.details.machine {
      node, createdAt := n, db.nodes[n].createdAt;
    } else {
      node := FreshNumber(db.nodes.Keys);
    }
    after := P.Database(
      db.requests[id := P.Approval(request, node, 0, "", at)],
      db.nodes[node := P.Node(request.details, 0, "", createdAt)],
      db.credentials[node := P.Credential(request.hash, at)]);
  }

  /** Its request is pending: the server may decide it at any time its clock shows. */
  lemma RequestedOvertakes(w: World, t: nat, ttl: int) returns (run: seq<World>, steps: seq<Step>)
    requires RestsOk(w.threads, w.core) && UpdatePending(w.core, w.now, ttl) && w.gate.None?
    requires t in w.threads && w.threads[t].Polling?
    requires TicketCurrent(w.core, w.threads[t].generation, w.threads[t].ticket.id)
    requires w.threads[t].ticket.id in w.db.requests
    requires var request := w.db.requests[w.threads[t].ticket.id];
             request.hash == P.Digest(w.threads[t].ticket.credential) && request.state == P.Pending
    ensures Overtakes(run, steps, ttl) && run[0] == w
  {
    hide P.ApprovedAs;
    var ticket := w.threads[t].ticket;
    var at := w.db.requests[ticket.id].expiresAt - 1;
    var node, db := NodeOf(w.db, ticket.id, at);
    var v := w.(db := db, installed := w.installed + {(node, w.db.requests[ticket.id].hash)});
    assert Next(w, Approve(ticket.id, node, 0, "", at), v, ttl);
    RequestIsApproved(w.db, db, ticket.id, node, at);
    run, steps := ApprovedOvertakes(v, t, ttl);
    Prepend(w, Approve(ticket.id, node, 0, "", at), run, steps, ttl);
    run, steps := [w] + run, [Approve(ticket.id, node, 0, "", at)] + steps;
  }

  lemma RequestIsApproved(before: P.Database, after: P.Database, id: nat, node: nat, at: int)
    requires P.ApprovedAs(before, after, id, node, 0, "", at)
    ensures id in after.requests && after.requests[id].node.Some? && after.requests[id].hash == before.requests[id].hash
  {
  }

  /** The server does not know the request yet. */
  lemma UnknownOvertakes(w: World, t: nat, ttl: int) returns (run: seq<World>, steps: seq<Step>)
    requires RestsOk(w.threads, w.core) && UpdatePending(w.core, w.now, ttl) && w.gate.None?
    requires t in w.threads && w.threads[t].Polling?
    requires TicketCurrent(w.core, w.threads[t].generation, w.threads[t].ticket.id)
    requires w.threads[t].ticket.id !in w.db.requests
    ensures Overtakes(run, steps, ttl) && run[0] == w
  {
    var ticket := w.threads[t].ticket;
    var (details, hash) := (P.Details(0, "", "", ""), P.Digest(ticket.credential));
    var v := w.(db := w.db.(requests := w.db.requests[ticket.id := P.NewRequest(details, hash, 0)]));
    assert Next(w, Create(ticket.id, details, hash, 0), v, ttl);
    run, steps := RequestedOvertakes(v, t, ttl);
    Prepend(w, Create(ticket.id, details, hash, 0), run, steps, ttl);
    run, steps := [w] + run, [Create(ticket.id, details, hash, 0)] + steps;
  }

  /** While a helper may run, only an approval holds the gate. */
  lemma GateIsFree(w: World, ttl: int)
    requires Inv(w, ttl) && UpdatePending(w.core, w.now, ttl) && w.gate.Some?
    ensures w.gate.value in w.threads && w.threads[w.gate.value].Approving?
  {
    hide FlightsOk, BegunOk, ConfigsOk, ServerOk;
    assert Rests(w.threads[w.gate.value], w.core);
  }

  lemma ApprovedHasNode(w: World, id: nat)
    requires ServerOk(w) && id in w.db.requests && w.db.requests[id].state == P.Approved
    ensures w.db.requests[id].node.Some?
  {
    P.RequestIsOk(w.db, id);
  }

  lemma OvertakableOvertakes(w: World, ttl: int) returns (run: seq<World>, steps: seq<Step>)
    requires Inv(w, ttl) && UpdatePending(w.core, w.now, ttl) && Overtakable(w)
    ensures Overtakes(run, steps, ttl) && run[0] == w
  {
    hide Overtakes, GateOk, RestsOk, FlightsOk, BegunOk, LaunchesOk, LauncherOk, ConfigsOk, ServerOk;
    var t :| t in w.threads && Approachable(w, w.threads[t]);
    if w.gate.Some? {
      GateIsFree(w, ttl);
      run, steps := ApprovingOvertakes(w, w.gate.value, ttl);
      return;
    }
    if w.threads[t].Approving? {
      run, steps := ApprovingOvertakes(w, t, ttl);
      return;
    }
    var ticket := w.threads[t].ticket;
    if node :| Reply(ticket.id, P.Digest(ticket.credential), node) in w.replies {
      run, steps := AnsweredOvertakes(w, t, node, ttl);
    } else if ticket.id !in w.db.requests {
      run, steps := UnknownOvertakes(w, t, ttl);
    } else if w.db.requests[ticket.id].state == P.Pending {
      run, steps := RequestedOvertakes(w, t, ttl);
    } else {
      ApprovedHasNode(w, ticket.id);
      run, steps := ApprovedOvertakes(w, t, ttl);
    }
  }

  // what cannot be overtaken stays so

  lemma NotApproachableHere(w: World, step: Step, v: World, ttl: int, t: nat)
    requires RestsOk(w.threads, w.core) && Next(w, step, v, ttl) && !step.Restart? && !OfServer(step)
    requires UpdatePending(w.core, w.now, ttl) && UpdatePending(v.core, v.now, ttl)
    requires t in v.threads && Approachable(v, v.threads[t])
    ensures t in w.threads && Approachable(w, w.threads[t])
  {
    hide Admit, MayLaunch;
    assert step.EndSwitch? || step.EndBoot? || step.EndApproval? ==> Rests(w.threads[step.t], w.core);
  }

  lemma NotApproachableThere(w: World, step: Step, v: World, ttl: int, ticket: Ticket)
    requires ServerOk(w) && Next(w, step, v, ttl) && OfServer(step)
    requires MayBeApproved(v.db, v.replies, ticket)
    ensures MayBeApproved(w.db, w.replies, ticket)
  {
    hide P.DatabaseOk;
    if step.Answer? {
      P.RequestIsOk(w.db, step.id);
    }
  }

  lemma NotOvertakableKept(w: World, step: Step, v: World, ttl: int)
    requires Inv(w, ttl) && Next(w, step, v, ttl) && !step.Restart? && !Overtakable(w)
    requires UpdatePending(w.core, w.now, ttl) && UpdatePending(v.core, v.now, ttl)
    ensures !Overtakable(v)
  {
    hide Next, GateOk, RestsOk, FlightsOk, BegunOk, LaunchesOk, LauncherOk, ConfigsOk, ServerOk, MayBeApproved;
    forall t | t in v.threads ensures !Approachable(v, v.threads[t]) {
      if Approachable(v, v.threads[t]) {
        if OfServer(step) {
          ServerStep(w, step, v, ttl);
          if v.threads[t].Polling? {
            NotApproachableThere(w, step, v, ttl, v.threads[t].ticket);
          }
        } else {
          NotApproachableHere(w, step, v, ttl, t);
        }
      }
    }
  }

  lemma {:induction false} NotOvertakableAlways(run: seq<World>, steps: seq<Step>, ttl: int, k: nat)
    requires Overtakes(run, steps, ttl) && Inv(run[0], ttl) && !Overtakable(run[0]) && k < |steps|
    ensures Inv(run[k], ttl) && !Overtakable(run[k])
  {
    hide Next, Inv, Overtakable;
    if k > 0 {
      NotOvertakableAlways(run, steps, ttl, k - 1);
      StepKeepsInv(run[k - 1], steps[k - 1], run[k], ttl);
      NotOvertakableKept(run[k - 1], steps[k - 1], run[k], ttl);
    }
  }

  lemma OvertakenWasOvertakable(run: seq<World>, steps: seq<Step>, ttl: int)
    requires Overtakes(run, steps, ttl) && Inv(run[0], ttl)
    ensures Overtakable(run[0])
  {
    hide Next, Inv, Overtakable;
    if !Overtakable(run[0]) {
      var last := |steps| - 1;
      NotOvertakableAlways(run, steps, ttl, last);
      SwitchIsApproved(run[last], steps[last], run[last + 1], ttl);
    }
  }

  lemma SwitchIsApproved(w: World, step: Step, v: World, ttl: int)
    requires Inv(w, ttl) && Next(w, step, v, ttl) && !step.Restart? && UpdatePending(w.core, w.now, ttl)
    requires v.core.generation != w.core.generation
    ensures Overtakable(w)
  {
    hide GateOk, FlightsOk, BegunOk, LaunchesOk, LauncherOk, ConfigsOk, ServerOk, P.ApprovedAs, P.LapseAll;
    if OfServer(step) {
      ServerStep(w, step, v, ttl);
    } else {
      MovedUnderPending(w, step, v, ttl);
      assert Approachable(w, w.threads[step.t]);
    }
  }

  /** From a state with a helper that may be running, the configuration can be switched before its time is up
      exactly if an approval is under way, or may come for a poll of the current ticket. */
  lemma OvertakenIff(worlds: seq<World>, steps: seq<Step>, ttl: int, i: nat)
    requires Behaviour(worlds, steps, ttl) && i < |worlds|
    requires UpdatePending(worlds[i].core, worlds[i].now, ttl)
    ensures (exists run, taken :: OvertakesFrom(worlds[i], run, taken, ttl)) <==> Overtakable(worlds[i])
  {
    hide Next, Inv, Goes, Overtakable;
    InvAlways(worlds, steps, ttl, i);
    if Overtakable(worlds[i]) {
      var run, taken := OvertakableOvertakes(worlds[i], ttl);
      assert OvertakesFrom(worlds[i], run, taken, ttl);
    }
    forall run, taken | OvertakesFrom(worlds[i], run, taken, ttl) ensures Overtakable(worlds[i]) {
      OvertakenWasOvertakable(run, taken, ttl);
    }
  }

  // ---- After a shutdown ------------------------------------------------------------------------

  lemma MovedInShutdown(w: World, step: Step, v: World, ttl: int)
    requires RestsOk(w.threads, w.core) && Next(w, step, v, ttl) && !step.Restart? && !OfServer(step)
    requires w.core.shuttingDown
    ensures v.core.generation != w.core.generation <==> step.EndSwitch?
    ensures v.core.config != w.core.config ==> step.EndSwitch?
    ensures v.disk != w.disk ==> step.SaveSwitch?
    ensures v.core.shuttingDown
  {
    hide Admit, MayLaunch, UpdatePending;
    assert step.EndBoot? || step.SaveApproval? || step.EndApproval? ==> Rests(w.threads[step.t], w.core);
  }

  /** After a shutdown the configuration is switched by the end of an Enroll or StartPairing, always and by nothing
      else, and the file is written by its save; and that one asked for a shutdown before there was one. */
  lemma OnlyEarlierSwitchesMove(worlds: seq<World>, steps: seq<Step>, ttl: int, j: nat) returns (i: nat)
    requires Behaviour(worlds, steps, ttl) && j < |steps| && !steps[j].Restart? && worlds[j].core.shuttingDown
    ensures worlds[j + 1].core.generation != worlds[j].core.generation <==> steps[j].EndSwitch?
    ensures worlds[j + 1].core.config != worlds[j].core.config ==> steps[j].EndSwitch?
    ensures worlds[j + 1].disk != worlds[j].disk ==> steps[j].SaveSwitch?
    ensures steps[j].SaveSwitch? || steps[j].EndSwitch? ==>
              && i < j && steps[i] == AskSwitch(steps[j].t) && !worlds[i].core.shuttingDown
              && forall k :: i <= k <= j ==> !steps[k].Restart?
  {
    hide GateOk, FlightsOk, BegunOk, LaunchesOk, LauncherOk, ConfigsOk, ServerOk, RestsOk, P.ApprovedAs, P.LapseAll;
    i := 0;
    InvAlways(worlds, steps, ttl, j);
    assert Next(worlds[j], steps[j], worlds[j + 1], ttl);
    if OfServer(steps[j]) {
      ServerStep(worlds[j], steps[j], worlds[j + 1], ttl);
    } else {
      MovedInShutdown(worlds[j], steps[j], worlds[j + 1], ttl);
      if steps[j].SaveSwitch? || steps[j].EndSwitch? {
        i := AskedBefore(worlds, steps, ttl, j, steps[j].t);
      }
    }
  }

  predicate Underway(thread: Thread) {
    thread.Preparing? || thread.Switching?
  }

  lemma WasUnderway(w: World, step: Step, v: World, ttl: int, t: nat)
    requires Next(w, step, v, ttl)
    requires t in v.threads && Underway(v.threads[t]) && !(t in w.threads && Underway(w.threads[t]))
    ensures step == AskSwitch(t) && !w.core.shuttingDown
  {
    hide Next;
    if OfServer(step) {
      ServerStep(w, step, v, ttl);
    } else {
      WasUnderwayHere(w, step, v, ttl, t);
    }
  }

  lemma WasUnderwayHere(w: World, step: Step, v: World, ttl: int, t: nat)
    requires Next(w, step, v, ttl) && !OfServer(step)
    requires t in v.threads && Underway(v.threads[t]) && !(t in w.threads && Underway(w.threads[t]))
    ensures step == AskSwitch(t) && !w.core.shuttingDown
  {
    hide Admit, MayLaunch, Activated, Invalidated, Booted, Launched, Landed, TicketCurrent, PairingEnded, UpdatePending;
  }

  lemma NobodyAfterRestart(w: World, v: World, ttl: int)
    requires Next(w, Restart, v, ttl)
    ensures v.threads == map[]
  {
  }

  lemma {:induction false} AskedBefore(worlds: seq<World>, steps: seq<Step>, ttl: int, j: nat, t: nat) returns (i: nat)
    requires Behaviour(worlds, steps, ttl) && j < |worlds| && t in worlds[j].threads && Underway(worlds[j].threads[t])
    ensures i < j && steps[i] == AskSwitch(t) && !worlds[i].core.shuttingDown
    ensures forall k :: i <= k < j ==> !steps[k].Restart?
    decreases j
  {
    hide Next;
    var w := worlds[j - 1];
    if steps[j - 1].Restart? {
      NobodyAfterRestart(w, worlds[j], ttl);
    }
    if t in w.threads && Underway(w.threads[t]) {
      i := AskedBefore(worlds, steps, ttl, j - 1, t);
    } else {
      WasUnderway(w, steps[j - 1], worlds[j], ttl, t);
      i := j - 1;
    }
  }

  // ---- Whether a switch can follow a shutdown -----------------------------------------------------

  /** The last step switches the configuration. */
  ghost predicate SwitchesFrom(w: World, run: seq<World>, steps: seq<Step>, ttl: int) {
    && Goes(run, steps, ttl) && run[0] == w && steps != []
    && run[|steps|].core.generation != run[|steps| - 1].core.generation
  }

  ghost predicate SomeUnderway(threads: Threads) {
    exists t :: t in threads && Underway(threads[t])
  }

  lemma SwitchedLater(w: World, step: Step, run: seq<World>, steps: seq<Step>, ttl: int)
    requires run != [] && Next(w, step, run[0], ttl) && !step.Restart? && SwitchesFrom(run[0], run, steps, ttl)
    ensures SwitchesFrom(w, [w] + run, [step] + steps, ttl)
  {
    hide Next;
    Prepend(w, step, run, steps, ttl);
  }

  lemma SavedSwitches(w: World, t: nat, ttl: int) returns (run: seq<World>, steps: seq<Step>)
    requires t in w.threads && w.threads[t].Switching? && w.threads[t].saved
    ensures SwitchesFrom(w, run, steps, ttl)
  {
    var poll := FreshNumber(w.threads.Keys);
    var core := Activated(w.core, w.threads[t].config);
    var v := Leaving(w, t).(core := core, threads := Polled(w.threads - {t}, core, poll));
    OneStep(w, EndSwitch(t, poll), v, ttl);
    run, steps := [w, v], [EndSwitch(t, poll)];
  }

  lemma SwitchingSwitches(w: World, t: nat, ttl: int) returns (run: seq<World>, steps: seq<Step>)
    requires t in w.threads && w.threads[t].Switching?
    ensures SwitchesFrom(w, run, steps, ttl)
  {
    if w.threads[t].saved {
      run, steps := SavedSwitches(w, t, ttl);
    } else {
      var config := w.threads[t].config;
      var v := w.(disk := config, threads := w.threads[t := Switching(config, true)]);
      assert Next(w, SaveSwitch(t, true, true), v, ttl);
      run, steps := SavedSwitches(v, t, ttl);
      SwitchedLater(w, SaveSwitch(t, true, true), run, steps, ttl);
      run, steps := [w] + run, [SaveSwitch(t, true, true)] + steps;
    }
  }

  /** One that has asked takes the gate as soon as no helper may be running. */
  lemma PreparingSwitches(w: World, t: nat, ttl: int) returns (run: seq<World>, steps: seq<Step>)
    requires At(w, t, Preparing) && w.gate.None? && !UpdatePending(w.core, w.now, ttl)
    ensures SwitchesFrom(w, run, steps, ttl)
  {
    var config := Enrolled(0, 0);
    var v := Taking(w, t, Switching(config, false)).(
      core := Refreshed(w.core, w.now, ttl), enrolled := w.enrolled + {(0, 0)});
    assert Next(w, BeginSwitch(t, config), v, ttl);
    run, steps := SwitchingSwitches(v, t, ttl);
    SwitchedLater(w, BeginSwitch(t, config), run, steps, ttl);
    run, steps := [w] + run, [BeginSwitch(t, config)] + steps;
  }

  lemma WaitingSwitches(w: World, t: nat, ttl: int) returns (run: seq<World>, steps: seq<Step>)
    requires At(w, t, Preparing) && w.gate.None? && UpdatePending(w.core, w.now, ttl)
    ensures SwitchesFrom(w, run, steps, ttl)
  {
    var d := w.core.pending.value.at + ttl - w.now;
    var v := w.(now := w.now + d);
    assert Next(w, Tick(d), v, ttl);
    run, steps := PreparingSwitches(v, t, ttl);
    SwitchedLater(w, Tick(d), run, steps, ttl);
    run, steps := [w] + run, [Tick(d)] + steps;
  }

  /** In a shutdown, only a switch holds the gate. */
  lemma GateOfShutdown(w: World)
    requires GateOk(w.gate, w.threads) && RestsOk(w.threads, w.core) && w.core.shuttingDown && w.gate.Some?
    ensures w.gate.value in w.threads && w.threads[w.gate.value].Switching?
  {
    assert Rests(w.threads[w.gate.value], w.core);
  }

  lemma UnderwaySwitches(w: World, ttl: int) returns (run: seq<World>, steps: seq<Step>)
    requires GateOk(w.gate, w.threads) && RestsOk(w.threads, w.core) && w.core.shuttingDown && SomeUnderway(w.threads)
    ensures SwitchesFrom(w, run, steps, ttl)
  {
    hide GateOk, RestsOk, SwitchesFrom;
    var t :| t in w.threads && Underway(w.threads[t]);
    if w.gate.Some? {
      GateOfShutdown(w);
      run, steps := SwitchingSwitches(w, w.gate.value, ttl);
    } else if w.threads[t].Switching? {
      run, steps := SwitchingSwitches(w, t, ttl);
    } else if UpdatePending(w.core, w.now, ttl) {
      run, steps := WaitingSwitches(w, t, ttl);
    } else {
      run, steps := PreparingSwitches(w, t, ttl);
    }
  }

  lemma {:induction false} NoneUnderwayAlways(run: seq<World>, steps: seq<Step>, ttl: int, k: nat)
    requires Goes(run, steps, ttl) && Inv(run[0], ttl) && k < |run|
    requires run[0].core.shuttingDown && !SomeUnderway(run[0].threads)
    ensures Inv(run[k], ttl) && run[k].core.shuttingDown && !SomeUnderway(run[k].threads) && Stands(run[0], run[k])
  {
    hide Next, Inv;
    if k > 0 {
      NoneUnderwayAlways(run, steps, ttl, k - 1);
      StepKeepsInv(run[k - 1], steps[k - 1], run[k], ttl);
      NoneUnderwayKept(run[k - 1], steps[k - 1], run[k], ttl);
    }
  }

  lemma NoneUnderwayKept(w: World, step: Step, v: World, ttl: int)
    requires Inv(w, ttl) && Next(w, step, v, ttl) && !step.Restart?
    requires w.core.shuttingDown && !SomeUnderway(w.threads)
    ensures v.core.shuttingDown && !SomeUnderway(v.threads) && Stands(w, v)
  {
    hide Next, GateOk, FlightsOk, BegunOk, LaunchesOk, LauncherOk, ConfigsOk, ServerOk, RestsOk;
    forall t | t in v.threads ensures !Underway(v.threads[t]) {
      if Underway(v.threads[t]) {
        WasUnderway(w, step, v, ttl, t);
      }
    }
    if OfServer(step) {
      ServerStep(w, step, v, ttl);
    } else {
      MovedInShutdown(w, step, v, ttl);
      SwitchIsUnderway(w, step, v, ttl);
    }
  }

  lemma SwitchIsUnderway(w: World, step: Step, v: World, ttl: int)
    requires Next(w, step, v, ttl)
    ensures step.SaveSwitch? || step.EndSwitch? ==> SomeUnderway(w.threads)
  {
    hide P.ApprovedAs, P.LapseAll;
    if step.SaveSwitch? || step.EndSwitch? {
      assert Underway(w.threads[step.t]);
    }
  }

  /** After a shutdown the configuration can still be switched exactly if an Enroll or StartPairing that asked
      before it has not come to its end. */
  lemma SwitchedAfterShutdownIff(worlds: seq<World>, steps: seq<Step>, ttl: int, i: nat)
    requires Behaviour(worlds, steps, ttl) && i < |worlds| && worlds[i].core.shuttingDown
    ensures (exists run, taken :: SwitchesFrom(worlds[i], run, taken, ttl)) <==> SomeUnderway(worlds[i].threads)
  {
    hide Next, FlightsOk, BegunOk, LaunchesOk, LauncherOk, ConfigsOk, ServerOk, GateOk, RestsOk, SomeUnderway;
    InvAlways(worlds, steps, ttl, i);
    if SomeUnderway(worlds[i].threads) {
      var run, taken := UnderwaySwitches(worlds[i], ttl);
    }
    forall run, taken | SwitchesFrom(worlds[i], run, taken, ttl) ensures SomeUnderway(worlds[i].threads) {
      if !SomeUnderway(worlds[i].threads) {
        NoneUnderwayAlways(run, taken, ttl, |taken|);
        NoneUnderwayAlways(run, taken, ttl, |taken| - 1);
      }
    }
  }

  // ---- Both do happen -------------------------------------------------------------------------------

  lemma GoesOn(worlds: seq<World>, steps: seq<Step>, run: seq<World>, taken: seq<Step>, ttl: int)
    requires Behaviour(worlds, steps, ttl) && Goes(run, taken, ttl) && run[0] == worlds[|steps|]
    ensures Behaviour(worlds + run[1..], steps + taken, ttl)
  {
    hide Next, Init;
    var (all, every) := (worlds + run[1..], steps + taken);
    forall k | 0 <= k < |every| ensures Next(all[k], every[k], all[k + 1], ttl) {
      if k < |steps| {
        assert all[k] == worlds[k] && all[k + 1] == worlds[k + 1] && every[k] == steps[k];
      } else {
        assert all[k] == run[k - |steps|] && all[k + 1] == run[k - |steps| + 1];
      }
    }
  }

  const START := World(INITIAL, None, map[], NoConfig, 0, [], P.Database(map[], map[], map[]), {}, {}, {}, [])

  const TICKET := Ticket(7, 5, 100)

  const AWAITING := Core(2, Awaiting(TICKET), Status(WaitingForApproval, None), None, None, false)

  const ASKED := START.(threads := map[0 := Preparing])

  const BEGUN := START.(gate := Some(0), threads := map[0 := Switching(Awaiting(TICKET), false)])

  const SAVED := START.(gate := Some(0), threads := map[0 := Switching(Awaiting(TICKET), true)],
    disk := Awaiting(TICKET))

  /** The agent waits for the approval of its pairing, and polls. */
  const POLLING := START.(core := AWAITING, disk := Awaiting(TICKET), threads := map[1 := Polling(2, TICKET)])

  const FLIGHT := Flight(0, 2)

  const CHECKING := POLLING.(core := AWAITING.(flight := Some(FLIGHT)), begun := [Awaiting(TICKET)],
    threads := map[1 := Polling(2, TICKET), 2 := Checking(FLIGHT)])

  const LAUNCHING := CHECKING.(gate := Some(2), threads := map[1 := Polling(2, TICKET), 2 := Launching(FLIGHT)])

  /** A helper may be running, for a configuration that names no server. */
  const PENDING := CHECKING.(core := Launched(CHECKING.core, 9, 0), launches := [Launch(2, 0)])

  lemma PairingIsPrepared(ttl: int)
    ensures Next(START, AskSwitch(0), ASKED, ttl) && Next(ASKED, BeginSwitch(0, Awaiting(TICKET)), BEGUN, ttl)
  {
  }

  lemma PairingIsSaved(ttl: int)
    ensures Next(BEGUN, SaveSwitch(0, true, true), SAVED, ttl)
  {
  }

  lemma PairingIsPolled(ttl: int)
    ensures Next(SAVED, EndSwitch(0, 1), POLLING, ttl)
  {
  }

  lemma CheckIsBegun(ttl: int)
    ensures Next(POLLING, BeginCheck(2), CHECKING, ttl)
  {
  }

  lemma LaunchIsGranted(ttl: int)
    ensures Next(CHECKING, Authorize(2), LAUNCHING, ttl) && !AsksItsServer(CHECKING, Authorize(2))
  {
  }

  lemma LaunchIsRecorded(ttl: int)
    requires ttl > 0
    ensures Next(LAUNCHING, FinishLaunch(2, Some(9)), PENDING, ttl)
    ensures UpdatePending(PENDING.core, PENDING.now, ttl) && Overtakable(PENDING)
  {
    assert Approachable(PENDING, PENDING.threads[1]);
  }

  /** A service that launched helpers for a configuration without a server would be overtaken: the agent pairs,
      launches, and is approved while the helper may still run. */
  lemma ApprovalUnderPending(ttl: int) returns (worlds: seq<World>, steps: seq<Step>)
    requires ttl > 0
    ensures Behaviour(worlds, steps, ttl) && |steps| > 7 && steps[|steps| - 1].EndApproval?
    ensures UpdatePending(worlds[|steps| - 1].core, worlds[|steps| - 1].now, ttl)
    ensures worlds[|steps|].core.generation != worlds[|steps| - 1].core.generation
    ensures !AsksItsServer(worlds[5], steps[5])
  {
    hide Next, AsksItsServer, Inv, Overtakable, UpdatePending, START, ASKED, BEGUN, SAVED, POLLING, CHECKING, LAUNCHING,
      PENDING;
    PairingIsPrepared(ttl);
    PairingIsSaved(ttl);
    PairingIsPolled(ttl);
    CheckIsBegun(ttl);
    LaunchIsGranted(ttl);
    LaunchIsRecorded(ttl);
    StartIsInit();
    var first := [START, ASKED, BEGUN, SAVED, POLLING, CHECKING, LAUNCHING, PENDING];
    var taken := [AskSwitch(0), BeginSwitch(0, Awaiting(TICKET)), SaveSwitch(0, true, true), EndSwitch(0, 1),
      BeginCheck(2), Authorize(2), FinishLaunch(2, Some(9))];
    assert Behaviour(first, taken, ttl);
    InvAlways(first, taken, ttl, 7);
    var run, more := OvertakableOvertakes(PENDING, ttl);
    GoesOn(first, taken, run, more, ttl);
    worlds, steps := first + run[1..], taken + more;
    var last := |more| - 1;
    assert worlds[|steps| - 1] == run[last] && worlds[|steps|] == run[last + 1] && steps[|steps| - 1] == more[last];
    OnlyApprovalsMove(worlds, steps, ttl, |steps| - 1);
  }

  lemma StartIsInit()
    ensures Init(START)
  {
  }

  const CLOSING := ASKED.(core := INITIAL.(shuttingDown := true))

  lemma ShutdownComes(ttl: int)
    ensures Next(ASKED, Shutdown, CLOSING, ttl) && CLOSING.core.shuttingDown && SomeUnderway(CLOSING.threads)
  {
    assert Underway(CLOSING.threads[0]);
  }

  /** An agent that is told to shut down while it waits for the answer to an enrollment switches all the same. */
  lemma SwitchAfterShutdown(ttl: int) returns (worlds: seq<World>, steps: seq<Step>)
    ensures Behaviour(worlds, steps, ttl) && steps != [] && worlds[|steps| - 1].core.shuttingDown
    ensures worlds[|steps|].core.generation != worlds[|steps| - 1].core.generation
  {
    hide Next, START, ASKED, CLOSING, GateOk, RestsOk, FlightsOk, BegunOk, LaunchesOk, LauncherOk, ConfigsOk, ServerOk,
      SomeUnderway, Stands;
    PairingIsPrepared(ttl);
    ShutdownComes(ttl);
    StartIsInit();
    var first, taken := [START, ASKED, CLOSING], [AskSwitch(0), Shutdown];
    assert Behaviour(first, taken, ttl);
    InvAlways(first, taken, ttl, 2);
    var run, more := UnderwaySwitches(CLOSING, ttl);
    GoesOn(first, taken, run, more, ttl);
    worlds, steps := first + run[1..], taken + more;
    var last := |more| - 1;
    assert worlds[|steps| - 1] == run[last] && worlds[|steps|] == run[last + 1] && steps[|steps| - 1] == more[last];
    ShutdownStays(run, more, ttl, last);
  }

  lemma {:induction false} ShutdownStays(run: seq<World>, steps: seq<Step>, ttl: int, k: nat)
    requires Goes(run, steps, ttl) && run[0].core.shuttingDown && k < |run|
    ensures run[k].core.shuttingDown
  {
    hide Next;
    if k > 0 {
      ShutdownStays(run, steps, ttl, k - 1);
      ShutdownKept(run[k - 1], steps[k - 1], run[k], ttl);
    }
  }

  lemma ShutdownKept(w: World, step: Step, v: World, ttl: int)
    requires Next(w, step, v, ttl) && !step.Restart? && w.core.shuttingDown
    ensures v.core.shuttingDown
  {
    hide P.ApprovedAs, P.LapseAll;
  }
}
