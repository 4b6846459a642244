/** The controller's operations as concurrent threads, its one launch gate, the
    configuration file, and the server that decides pairing requests. A step is
    one section of code under the mutex; a thread that takes the gate in one
    step and gives it back in a later one lets the others run in between. */
module ControllerProtocol {
  import opened Prelude
  import opened Controller
  import P = Pairing

  /** Where a running operation stands. */
  datatype Thread =
    // Enroll or StartPairing, without the gate, past its first test for a shutdown
    | Preparing
    // and with the gate: before and after its save
    | Switching(config: Config, saved: bool)
    // Bootstrap, with the gate, about to read the file
    | Booting
    // a flight, without and with the gate
    | Checking(flight: Flight)
    | Launching(flight: Flight)
    // a pairing poll; and its approval with the gate, before and after the save
    | Polling(generation: nat, ticket: Ticket)
    | Approving(generation: nat, ticket: Ticket, node: nat, saved: bool)
  {
    predicate HoldsGate() {
      Switching? || Booting? || Launching? || Approving?
    }

    predicate Flies() {
      Checking? || Launching?
    }
  }

  type Threads = map<nat, Thread>

  datatype Launch = Launch(generation: nat, at: int)

  /** An answer of the server to a poll: the request was approved for this node. */
  datatype Reply = Reply(id: nat, hash: P.Digest, node: nat)

  /** `disk`: the configuration file; `begun`: for every flight begun so far the configuration it checks for;
      `installed`: the credentials approvals ever installed; `enrolled`: what Enroll got from the server;
      `launches`: the launches recorded. */
  datatype World = World(
    core: Core,
    gate: Option<nat>,
    threads: Threads,
    disk: Config,
    now: int,
    begun: seq<Config>,
    db: P.Database,
    replies: set<Reply>,
    installed: set<(nat, P.Digest)>,
    enrolled: set<(nat, nat)>,
    launches: seq<Launch>)

  datatype Step =
    | Tick(d: nat)
    | Restart
    | Report(status: Status)
    | LookForPending
    | AskSwitch(t: nat)
    | LeaveSwitch(t: nat)
    | BeginSwitch(t: nat, config: Config)
    | SaveSwitch(t: nat, ok: bool, written: bool)
    | EndSwitch(t: nat, poll: nat)
    | BeginBoot(t: nat)
    | EndBoot(t: nat, readable: bool, poll: nat)
    | BeginCheck(t: nat)
    | Authorize(t: nat)
    | FinishLaunch(t: nat, launched: Option<nat>)
    | FinishFlight(t: nat)
    | Shutdown
    | EndPoll(t: nat, state: State)
    | LeavePoll(t: nat)
    | BeginApproval(t: nat, node: nat)
    | SaveApproval(t: nat, ok: bool, written: bool)
    | EndApproval(t: nat)
    // the server
    | Create(id: nat, details: P.Details, hash: P.Digest, at: int)
    | Approve(id: nat, node: nat, group: nat, remark: string, at: int)
    | Decline(id: nat, at: int)
    | Lapse(at: int)
    | Answer(id: nat, hash: P.Digest, node: nat)

  predicate Init(w: World) {
    w == World(INITIAL, None, map[], NoConfig, w.now, [], P.Database(map[], map[], map[]), {}, {}, {}, [])
  }

  function Taking(w: World, t: nat, thread: Thread): World {
    w.(gate := Some(t), threads := w.threads[t := thread])
  }

  function Leaving(w: World, t: nat): World {
    w.(gate := None, threads := w.threads - {t})
  }

  predicate At(w: World, t: nat, thread: Thread) {
    t in w.threads && w.threads[t] == thread
  }

  /** A configuration that waits for approval is polled by a new thread. */
  function Polled(threads: Threads, core: Core, poll: nat): Threads {
    if core.config.Awaiting? then threads[poll := Polling(core.generation, core.config.ticket)] else threads
  }

  /** What Bootstrap makes of the file. */
  function Booted(core: Core, disk: Config, readable: bool, now: int): Core {
    if !readable then core.(status := Status(Degraded, None))
    else match disk
      case NoConfig => core.(status := Status(Waiting, None))
      case Awaiting(ticket) =>
        if ticket.expires <= now then core.(config := disk, status := Status(PairingExpired, None))
        else core.(config := disk, status := Status(PairingRecovery, None))
      case Enrolled(node, _) => core.(config := disk, status := Status(Starting, Some(node)))
  }

  ghost predicate Next(w: World, step: Step, v: World, ttl: int) {
    match step
    case Tick(d) => v == w.(now := w.now + d)
    case Restart => v == w.(core := INITIAL, gate := None, threads := map[], launches := [])
    // worker snapshots, worker restarts and worker ends
    case Report(status) => v == w.(core := w.core.(status := status))
    case LookForPending => v == w.(core := Refreshed(w.core, w.now, ttl))

    // the first tests of Enroll and StartPairing, for a pending update and for a shutdown
    case AskSwitch(t) =>
      var core := Refreshed(w.core, w.now, ttl);
      && t !in w.threads
      && v == if core.pending.Some? || core.shuttingDown then w.(core := core)
              else w.(core := core, threads := w.threads[t := Preparing])
    case LeaveSwitch(t) => At(w, t, Preparing) && v == w.(threads := w.threads - {t})
    // under the gate only a pending update is asked for again
    case BeginSwitch(t, config) =>
      var core := Refreshed(w.core, w.now, ttl);
      && w.gate.None? && At(w, t, Preparing) && !config.NoConfig?
      && if core.pending.Some? then v == w.(core := core, threads := w.threads - {t})
         else v == Taking(w, t, Switching(config, false)).(core := core,
                enrolled := w.enrolled + if config.Enrolled? then {(config.node, config.credential)} else {})
    case SaveSwitch(t, ok, written) =>
      && t in w.threads && w.threads[t].Switching? && !w.threads[t].saved && (ok ==> written)
      && var config := w.threads[t].config;
         var saved := w.(disk := if written then config else w.disk);
         v == if ok then saved.(threads := w.threads[t := Switching(config, true)]) else Leaving(saved, t)
    case EndSwitch(t, poll) =>
      && t in w.threads && w.threads[t].Switching? && w.threads[t].saved && poll !in w.threads
      && var core := Activated(w.core, w.threads[t].config);
         v == Leaving(w, t).(core := core, threads := Polled(w.threads - {t}, core, poll))

    case BeginBoot(t) =>
      var core := Refreshed(w.core, w.now, ttl);
      && w.gate.None? && t !in w.threads
      && if core.pending.Some? || core.shuttingDown then v == w.(core := core)
         else v == Taking(w, t, Booting).(core := Invalidated(core))
    case EndBoot(t, readable, poll) =>
      && At(w, t, Booting) && poll !in w.threads
      && var core := Booted(w.core, w.disk, readable, w.now);
         v == Leaving(w, t).(core := core,
                threads := if core.status.state == PairingRecovery then Polled(w.threads - {t}, core, poll)
                  else w.threads - {t})

    case BeginCheck(t) =>
      && w.gate.None? && t !in w.threads
      && if Admit(w.core, w.now, ttl) == Begins then
           var flight := Flight(|w.begun|, w.core.generation);
           v == w.(core := w.core.(flight := Some(flight)), begun := w.begun + [w.core.config],
                   threads := w.threads[t := Checking(flight)])
         else v == w
    case Authorize(t) =>
      && w.gate.None? && t in w.threads && w.threads[t].Checking?
      && var flight := w.threads[t].flight;
         v == if MayLaunch(w.core, flight.generation, w.now, ttl) then Taking(w, t, Launching(flight)) else w
    case FinishLaunch(t, launched) =>
      && t in w.threads && w.threads[t].Launching?
      && var back := w.(gate := None, threads := w.threads[t := Checking(w.threads[t].flight)]);
         v == if launched.None? then back
              else back.(core := Launched(w.core, launched.value, w.now),
                         launches := w.launches + [Launch(w.core.generation, w.now)])
    case FinishFlight(t) =>
      && w.gate.None? && t in w.threads && w.threads[t].Checking?
      && v == w.(core := Landed(w.core, w.threads[t].flight), threads := w.threads - {t})

    case Shutdown => w.gate.None? && v == w.(core := w.core.(shuttingDown := true))

    case EndPoll(t, state) =>
      && t in w.threads && w.threads[t].Polling?
      && v == w.(core := PairingEnded(w.core, w.threads[t].generation, w.threads[t].ticket.id, state),
                 threads := w.threads - {t})
    case LeavePoll(t) => t in w.threads && w.threads[t].Polling? && v == w.(threads := w.threads - {t})
    case BeginApproval(t, node) =>
      && w.gate.None? && t in w.threads && w.threads[t].Polling?
      && var (generation, ticket) := (w.threads[t].generation, w.threads[t].ticket);
         && Reply(ticket.id, P.Digest(ticket.credential), node) in w.replies
         && v == if TicketCurrent(w.core, generation, ticket.id)
                 then Taking(w, t, Approving(generation, ticket, node, false))
                 else w.(threads := w.threads - {t})
    case SaveApproval(t, ok, written) =>
      && t in w.threads && w.threads[t].Approving? && !w.threads[t].saved && (ok ==> written)
      && var (generation, ticket, node) := (w.threads[t].generation, w.threads[t].ticket, w.threads[t].node);
         var saved := w.(disk := if written then Enrolled(node, ticket.credential) else w.disk);
         v == if ok then saved.(threads := w.threads[t := Approving(generation, ticket, node, true)])
              else Leaving(saved, t).(core := PairingEnded(w.core, generation, ticket.id, Failed))
    case EndApproval(t) =>
      && t in w.threads && w.threads[t].Approving? && w.threads[t].saved
      && var (generation, ticket, node) := (w.threads[t].generation, w.threads[t].ticket, w.threads[t].node);
         v == if TicketCurrent(w.core, generation, ticket.id) then
                Leaving(w, t).(core := Activated(w.core, Enrolled(node, ticket.credential)))
              else Leaving(w, t)

    case Create(id, details, hash, at) =>
      id !in w.db.requests && v == w.(db := w.db.(requests := w.db.requests[id := P.NewRequest(details, hash, at)]))
    case Approve(id, node, group, remark, at) =>
      && P.ApprovedAs(w.db, v.db, id, node, group, remark, at)
      && v == w.(db := v.db, installed := w.installed + {(node, w.db.requests[id].hash)})
    case Decline(id, at) =>
      && id in w.db.requests && w.db.requests[id].state == P.Pending && at < w.db.requests[id].expiresAt
      && var rejected := w.db.requests[id].(state := P.Rejected, decidedAt := Some(at));
         v == w.(db := w.db.(requests := w.db.requests[id := rejected]))
    case Lapse(at) => v == w.(db := w.db.(requests := P.LapseAll(w.db.requests, at)))
    case Answer(id, hash, node) =>
      && id in w.db.requests && w.db.requests[id].hash == hash && w.db.requests[id].node == Some(node)
      && v == w.(replies := w.replies + {Reply(id, hash, node)})
  }

  // ---- What every step keeps -----------------------------------------------------------

  ghost predicate GateOk(gate: Option<nat>, threads: Threads) {
    && (gate.Some? ==> gate.value in threads && threads[gate.value].HoldsGate())
    && (forall t :: t in threads && threads[t].HoldsGate() ==> gate == Some(t))
  }

  /** A thread between a check under the gate and what relies on it. */
  predicate Rests(thread: Thread, core: Core) {
    match thread
    case Switching(_, _) => core.pending.None?
    case Booting => core.config == NoConfig && core.pending.None? && !core.shuttingDown
    case Launching(flight) => flight.generation == core.generation && !core.shuttingDown
    case Approving(generation, ticket, _, _) => TicketCurrent(core, generation, ticket.id)
    case _ => true
  }

  ghost predicate RestsOk(threads: Threads, core: Core) {
    forall t :: t in threads ==> Rests(threads[t], core)
  }

  /** No two flights of one generation; the one of the current generation is known to the controller. */
  ghost predicate FlightsOk(threads: Threads, core: Core, flights: nat) {
    && (core.flight.Some? ==> core.flight.value.generation == core.generation && core.flight.value.id < flights)
    && (forall t :: t in threads && threads[t].Flies() ==>
        threads[t].flight.generation <= core.generation && threads[t].flight.id < flights)
    && (forall t :: t in threads && threads[t].Flies() && threads[t].flight.generation == core.generation ==>
        core.flight == Some(threads[t].flight))
    && (forall t, u :: t in threads && u in threads && threads[t].Flies() && threads[u].Flies() && t != u ==>
                         threads[t].flight.generation != threads[u].flight.generation)
  }

  /** A flight of the current generation checks for the current configuration. */
  ghost predicate BegunOk(threads: Threads, core: Core, begun: seq<Config>) {
    forall t :: t in threads && threads[t].Flies() && threads[t].flight.generation == core.generation ==>
      && threads[t].flight.id < |begun| && begun[threads[t].flight.id] == core.config && NobodyBoots(threads)
  }

  ghost predicate NobodyBoots(threads: Threads) {
    forall t :: t in threads ==> !threads[t].Booting?
  }

  predicate Apart(a: Launch, b: Launch, ttl: int) {
    a.generation == b.generation ==> a.at + ttl <= b.at
  }

  /** The launches of one generation are apart, and the last one is on record as long as it may still run. */
  ghost predicate LaunchesOk(launches: seq<Launch>, core: Core, now: int, ttl: int) {
    && (forall i :: 0 <= i < |launches| ==> launches[i].generation <= core.generation && launches[i].at <= now)
    && (forall i, j :: 0 <= i < j < |launches| ==> Apart(launches[i], launches[j], ttl))
    && (core.pending.Some? ==>
        launches != [] && launches[|launches| - 1] == Launch(core.generation, core.pending.value.at))
    && (core.pending.None? ==>
        forall i :: 0 <= i < |launches| && launches[i].generation == core.generation ==> launches[i].at + ttl <= now)
  }

  /** A thread with a launch authorization: the time of every earlier launch is up. */
  ghost predicate LauncherOk(threads: Threads, launches: seq<Launch>, core: Core, now: int, ttl: int) {
    forall t :: t in threads && threads[t].Launching? ==>
      forall i :: 0 <= i < |launches| && launches[i].generation == core.generation ==> launches[i].at + ttl <= now
  }

  /** An enrolled configuration comes from Enroll, or from an approval that installed its credential for its node. */
  predicate Granted(config: Config, installed: set<(nat, P.Digest)>, enrolled: set<(nat, nat)>) {
    config.Enrolled? ==>
      (config.node, config.credential) in enrolled || (config.node, P.Digest(config.credential)) in installed
  }

  ghost predicate ConfigsOk(w: World) {
    && Granted(w.core.config, w.installed, w.enrolled) && Granted(w.disk, w.installed, w.enrolled)
    && (forall t :: t in w.threads && w.threads[t].Switching? ==> Granted(w.threads[t].config, w.installed, w.enrolled))
    && (forall t :: t in w.threads && w.threads[t].Approving? ==>
        (w.threads[t].node, P.Digest(w.threads[t].ticket.credential)) in w.installed)
  }

  ghost predicate ServerOk(w: World) {
    && P.DatabaseOk(w.db)
    && (forall id :: id in w.db.requests && w.db.requests[id].node.Some? ==>
        (w.db.requests[id].node.value, w.db.requests[id].hash) in w.installed)
    && (forall r :: r in w.replies ==> (r.node, r.hash) in w.installed)
  }

  ghost predicate Inv(w: World, ttl: int) {
    && GateOk(w.gate, w.threads) && RestsOk(w.threads, w.core) && FlightsOk(w.threads, w.core, |w.begun|)
    && BegunOk(w.threads, w.core, w.begun)
    && LaunchesOk(w.launches, w.core, w.now, ttl) && LauncherOk(w.threads, w.launches, w.core, w.now, ttl)
    && ConfigsOk(w) && ServerOk(w)
  }

  lemma InitOk(w: World, ttl: int)
    requires Init(w)
    ensures Inv(w, ttl)
  {
  }

  // ---- Each step keeps it ---------------------------------------------------------------

  /** The steps that touch neither the generation nor the configuration nor the pending update. */
  predicate Quiet(step: Step) {
    || step.Report? || step.BeginCheck? || step.Authorize? || step.FinishFlight? || step.Shutdown?
    || step.EndPoll? || step.LeavePoll? || step.BeginApproval? || step.SaveApproval? || step.SaveSwitch?
    || step.LeaveSwitch? || OfServer(step)
  }

  predicate OfServer(step: Step) {
    step.Create? || step.Approve? || step.Decline? || step.Lapse? || step.Answer?
  }

  lemma ServerStep(w: World, step: Step, v: World, ttl: int)
    requires Next(w, step, v, ttl) && OfServer(step)
    ensures v == w.(db := v.db, replies := v.replies, installed := v.installed) && w.installed <= v.installed
  {
    hide P.ApprovedAs, P.LapseAll;
  }

  lemma GateKept(w: World, step: Step, v: World, ttl: int)
    requires GateOk(w.gate, w.threads) && Next(w, step, v, ttl)
    ensures GateOk(v.gate, v.threads)
  {
    hide Next;
    if OfServer(step) {
      ServerStep(w, step, v, ttl);
    } else if Quiet(step) {
      GateKeptQuietly(w, step, v, ttl);
    } else {
      GateMoved(w, step, v, ttl);
    }
  }

  lemma GateKeptQuietly(w: World, step: Step, v: World, ttl: int)
    requires GateOk(w.gate, w.threads) && Next(w, step, v, ttl) && Quiet(step) && !OfServer(step)
    ensures GateOk(v.gate, v.threads)
  {
    hide Admit, MayLaunch, Landed, TicketCurrent, PairingEnded;
  }

  lemma GateMoved(w: World, step: Step, v: World, ttl: int)
    requires GateOk(w.gate, w.threads) && Next(w, step, v, ttl) && !Quiet(step)
    ensures GateOk(v.gate, v.threads)
  {
    hide Refreshed, Activated, Invalidated, Booted, Launched, TicketCurrent;
  }

  lemma RestsKept(w: World, step: Step, v: World, ttl: int)
    requires GateOk(w.gate, w.threads) && RestsOk(w.threads, w.core) && Next(w, step, v, ttl)
    ensures RestsOk(v.threads, v.core)
  {
    hide Next, GateOk;
    if OfServer(step) {
      ServerStep(w, step, v, ttl);
    } else if Quiet(step) {
      RestsKeptQuietly(w, step, v, ttl);
    } else {
      RestsMoved(w, step, v, ttl);
    }
  }

  lemma RestsKeptQuietly(w: World, step: Step, v: World, ttl: int)
    requires GateOk(w.gate, w.threads) && RestsOk(w.threads, w.core)
    requires Next(w, step, v, ttl) && Quiet(step) && !OfServer(step)
    ensures RestsOk(v.threads, v.core)
  {
    hide Admit;
  }

  lemma RestsMoved(w: World, step: Step, v: World, ttl: int)
    requires GateOk(w.gate, w.threads) && RestsOk(w.threads, w.core) && Next(w, step, v, ttl) && !Quiet(step)
    ensures RestsOk(v.threads, v.core)
  {
    hide Activated, Booted, UpdatePending;
  }

  /** Every thread that flies now flew before, in the same flight. */
  ghost predicate NoneTakesOff(before: Threads, after: Threads) {
    forall t :: t in after && after[t].Flies() ==>
      t in before && before[t].Flies() && before[t].flight == after[t].flight
  }

  lemma FlightsStay(before: Threads, after: Threads, core: Core, core': Core, flights: nat)
    requires FlightsOk(before, core, flights) && NoneTakesOff(before, after)
    requires (core'.generation == core.generation && core'.flight == core.flight)
      || (core'.generation > core.generation && core'.flight.None?)
    ensures FlightsOk(after, core', flights)
  {
  }

  lemma FlightsKept(w: World, step: Step, v: World, ttl: int)
    requires FlightsOk(w.threads, w.core, |w.begun|) && Next(w, step, v, ttl)
    ensures FlightsOk(v.threads, v.core, |v.begun|)
  {
    hide Next, FlightsOk;
    if OfServer(step) {
      ServerStep(w, step, v, ttl);
    } else if step.BeginCheck? {
      TakeOffKept(w, step.t, v, ttl);
    } else if step.FinishFlight? {
      LandingKept(w, step.t, v, ttl);
    } else if step.Restart? {
      RestartKept(w, v, ttl);
    } else {
      FlightIsCurrent(w);
      NobodyTakesOff(w, step, v, ttl);
      FlightStaysOrEnds(w, step, v, ttl);
      FlightsStay(w.threads, v.threads, w.core, v.core, |w.begun|);
    }
  }

  lemma NobodyTakesOff(w: World, step: Step, v: World, ttl: int)
    requires Next(w, step, v, ttl) && !OfServer(step) && !step.BeginCheck? && !step.FinishFlight? && !step.Restart?
    ensures NoneTakesOff(w.threads, v.threads) && v.begun == w.begun
  {
    hide Refreshed, MayLaunch, Activated, Invalidated, Booted, Launched, TicketCurrent, PairingEnded;
  }

  lemma FlightStaysOrEnds(w: World, step: Step, v: World, ttl: int)
    requires Next(w, step, v, ttl) && !OfServer(step) && !step.BeginCheck? && !step.FinishFlight? && !step.Restart?
    requires w.core.flight.Some? ==> w.core.flight.value.generation == w.core.generation
    ensures (v.core.generation == w.core.generation && v.core.flight == w.core.flight)
            || (v.core.generation > w.core.generation && v.core.flight.None?)
  {
    hide MayLaunch, TicketCurrent, UpdatePending;
  }

  lemma RestartKept(w: World, v: World, ttl: int)
    requires Next(w, Restart, v, ttl)
    ensures FlightsOk(v.threads, v.core, |v.begun|)
  {
    NobodyFlies(|v.begun|);
  }

  lemma NobodyFlies(flights: nat)
    ensures FlightsOk(map[], INITIAL, flights)
  {
  }

  lemma FlightIsCurrent(w: World)
    requires FlightsOk(w.threads, w.core, |w.begun|)
    ensures w.core.flight.Some? ==> w.core.flight.value.generation == w.core.generation
  {
  }

  lemma TakeOffKept(w: World, t: nat, v: World, ttl: int)
    requires FlightsOk(w.threads, w.core, |w.begun|) && Next(w, BeginCheck(t), v, ttl)
    ensures FlightsOk(v.threads, v.core, |v.begun|)
  {
  }

  lemma LandingKept(w: World, t: nat, v: World, ttl: int)
    requires FlightsOk(w.threads, w.core, |w.begun|) && Next(w, FinishFlight(t), v, ttl)
    ensures FlightsOk(v.threads, v.core, |v.begun|)
  {
  }

  // what a flight checks for

  lemma BegunKept(w: World, step: Step, v: World, ttl: int)
    requires GateOk(w.gate, w.threads) && FlightsOk(w.threads, w.core, |w.begun|)
    requires BegunOk(w.threads, w.core, w.begun) && Next(w, step, v, ttl)
    ensures BegunOk(v.threads, v.core, v.begun)
  {
    hide Next, GateOk, FlightsOk;
    if OfServer(step) {
      ServerStep(w, step, v, ttl);
    } else if step.BeginCheck? {
      BegunIsCurrent(w, step.t, v, ttl);
    } else if step.FinishFlight? {
      BegunWithout(w, step.t, v, ttl);
    } else if step.Restart? {
      NobodyRuns(w, v, ttl);
    } else {
      NobodyTakesOff(w, step, v, ttl);
      FliersAreEarlier(w);
      CurrentStays(w, step, v, ttl);
    }
  }

  lemma BegunIsCurrent(w: World, t: nat, v: World, ttl: int)
    requires GateOk(w.gate, w.threads) && BegunOk(w.threads, w.core, w.begun) && Next(w, BeginCheck(t), v, ttl)
    ensures BegunOk(v.threads, v.core, v.begun)
  {
  }

  lemma BegunWithout(w: World, t: nat, v: World, ttl: int)
    requires BegunOk(w.threads, w.core, w.begun) && Next(w, FinishFlight(t), v, ttl)
    ensures BegunOk(v.threads, v.core, v.begun)
  {
  }

  lemma NobodyRuns(w: World, v: World, ttl: int)
    requires Next(w, Restart, v, ttl)
    ensures v.threads == map[]
  {
  }

  lemma FliersAreEarlier(w: World)
    requires FlightsOk(w.threads, w.core, |w.begun|)
    ensures forall t :: t in w.threads && w.threads[t].Flies() ==> w.threads[t].flight.generation <= w.core.generation
  {
  }

  /** Within a generation, while nobody boots, the configuration stays and nobody begins to. */
  lemma CurrentStays(w: World, step: Step, v: World, ttl: int)
    requires Next(w, step, v, ttl) && !OfServer(step) && !step.Restart?
    ensures v.core.generation > w.core.generation
            || (v.core.generation == w.core.generation
                && (NobodyBoots(w.threads) ==> v.core.config == w.core.config && NobodyBoots(v.threads)))
  {
    hide P.ApprovedAs, P.LapseAll, TicketCurrent, MayLaunch, UpdatePending;
  }

  // launches

  lemma TimePasses(launches: seq<Launch>, core: Core, core': Core, now: int, now': int, ttl: int)
    requires LaunchesOk(launches, core, now, ttl) && now <= now' && core'.generation == core.generation
    requires core'.pending == core.pending
    ensures LaunchesOk(launches, core', now', ttl)
  {
  }

  lemma RefreshKeeps(launches: seq<Launch>, core: Core, now: int, ttl: int)
    requires LaunchesOk(launches, core, now, ttl)
    ensures LaunchesOk(launches, Refreshed(core, now, ttl), now, ttl)
    ensures !UpdatePending(core, now, ttl) ==>
              forall i :: 0 <= i < |launches| && launches[i].generation == core.generation ==>
                launches[i].at + ttl <= now
  {
    if core.pending.Some? && !UpdatePending(core, now, ttl) {
      var last := |launches| - 1;
      forall i | 0 <= i < |launches| && launches[i].generation == core.generation ensures launches[i].at + ttl <= now {
        assert i < last ==> Apart(launches[i], launches[last], ttl);
      }
    }
  }

  lemma NextGenerationKeeps(launches: seq<Launch>, core: Core, core': Core, now: int, ttl: int)
    requires LaunchesOk(launches, core, now, ttl) && core'.generation == core.generation + 1 && core'.pending.None?
    ensures LaunchesOk(launches, core', now, ttl)
  {
  }

  lemma LaunchKeeps(launches: seq<Launch>, core: Core, version: nat, now: int, ttl: int)
    requires LaunchesOk(launches, core, now, ttl)
    requires forall i :: 0 <= i < |launches| && launches[i].generation == core.generation ==>
      launches[i].at + ttl <= now
    ensures LaunchesOk(launches + [Launch(core.generation, now)], Launched(core, version, now), now, ttl)
  {
  }

  lemma NoLaunches(core: Core, now: int, ttl: int)
    requires core.pending.None?
    ensures LaunchesOk([], core, now, ttl)
  {
  }

  lemma QuietStep(w: World, step: Step, v: World, ttl: int)
    requires Next(w, step, v, ttl) && Quiet(step)
    ensures v.core.generation == w.core.generation && v.core.config == w.core.config && v.core.pending == w.core.pending
    ensures v.launches == w.launches && v.now == w.now
  {
    hide Next;
    if OfServer(step) {
      ServerStep(w, step, v, ttl);
    } else {
      QuietHere(w, step, v, ttl);
    }
  }

  lemma QuietHere(w: World, step: Step, v: World, ttl: int)
    requires Next(w, step, v, ttl) && Quiet(step) && !OfServer(step)
    ensures v.core.generation == w.core.generation && v.core.config == w.core.config && v.core.pending == w.core.pending
    ensures v.launches == w.launches && v.now == w.now
    ensures v.db == w.db && v.installed == w.installed && v.enrolled == w.enrolled && v.replies == w.replies
  {
    hide Admit, MayLaunch, TicketCurrent;
  }

  lemma LaunchesKept(w: World, step: Step, v: World, ttl: int)
    requires LaunchesOk(w.launches, w.core, w.now, ttl) && LauncherOk(w.threads, w.launches, w.core, w.now, ttl)
    requires Next(w, step, v, ttl)
    ensures LaunchesOk(v.launches, v.core, v.now, ttl)
  {
    hide Next;
    if Quiet(step) {
      QuietStep(w, step, v, ttl);
      TimePasses(w.launches, w.core, v.core, w.now, v.now, ttl);
    } else {
      LaunchesMoved(w, step, v, ttl);
    }
  }

  lemma LaunchesMoved(w: World, step: Step, v: World, ttl: int)
    requires LaunchesOk(w.launches, w.core, w.now, ttl) && LauncherOk(w.threads, w.launches, w.core, w.now, ttl)
    requires Next(w, step, v, ttl) && !Quiet(step)
    ensures LaunchesOk(v.launches, v.core, v.now, ttl)
  {
    hide P.ApprovedAs, P.LapseAll, LaunchesOk, Refreshed;
    var core := Refreshed(w.core, w.now, ttl);
    RefreshKeeps(w.launches, w.core, w.now, ttl);
    RefreshedIs(w.core, w.now, ttl);
    if step.Restart? {
      NoLaunches(INITIAL, v.now, ttl);
    } else if step.FinishLaunch? && step.launched.Some? {
      LaunchKeeps(w.launches, w.core, step.launched.value, w.now, ttl);
    } else if v.core.generation != w.core.generation {
      NextGenerationKeeps(w.launches, w.core, v.core, w.now, ttl);
    } else if v.core.pending == w.core.pending {
      TimePasses(w.launches, w.core, v.core, w.now, v.now, ttl);
    } else {
      TimePasses(w.launches, core, v.core, w.now, v.now, ttl);
    }
  }

  lemma RefreshedIs(core: Core, now: int, ttl: int)
    ensures Refreshed(core, now, ttl) == core || Refreshed(core, now, ttl) == core.(pending := None)
  {
  }

  predicate Releases(step: Step, t: nat) {
    step.Restart? || (step.FinishLaunch? && step.t == t)
  }

  lemma StillLaunching(w: World, step: Step, v: World, ttl: int, t: nat, flight: Flight)
    requires GateOk(w.gate, w.threads) && Next(w, step, v, ttl)
    requires At(w, t, Launching(flight)) && !Releases(step, t)
    ensures At(v, t, Launching(flight))
    ensures v.core.generation == w.core.generation && v.core.config == w.core.config
    ensures v.core.shuttingDown == w.core.shuttingDown
    ensures v.launches == w.launches && v.disk == w.disk && v.now >= w.now
  {
    hide P.ApprovedAs, P.LapseAll;
  }

  lemma LauncherIsOld(w: World, step: Step, v: World, ttl: int, t: nat)
    requires Next(w, step, v, ttl) && t in v.threads && v.threads[t].Launching? && step != Authorize(t)
    ensures At(w, t, v.threads[t]) && !Releases(step, t)
  {
    hide Next;
    if OfServer(step) {
      ServerStep(w, step, v, ttl);
    } else {
      LauncherWasHere(w, step, v, ttl, t);
    }
  }

  lemma LauncherWasHere(w: World, step: Step, v: World, ttl: int, t: nat)
    requires Next(w, step, v, ttl) && !OfServer(step) && step != Authorize(t)
    requires t in v.threads && v.threads[t].Launching?
    ensures At(w, t, v.threads[t]) && !Releases(step, t)
  {
    hide Refreshed, Admit, MayLaunch, Activated, Invalidated, Booted, Launched, Landed, TicketCurrent, PairingEnded;
  }

  lemma LauncherKept(w: World, step: Step, v: World, ttl: int)
    requires GateOk(w.gate, w.threads) && LaunchesOk(w.launches, w.core, w.now, ttl)
    requires LauncherOk(w.threads, w.launches, w.core, w.now, ttl)
    requires Next(w, step, v, ttl)
    ensures LauncherOk(v.threads, v.launches, v.core, v.now, ttl)
  {
    hide Next, LaunchesOk, GateOk;
    forall t | t in v.threads && v.threads[t].Launching?
      ensures forall i :: 0 <= i < |v.launches| && v.launches[i].generation == v.core.generation ==>
        v.launches[i].at + ttl <= v.now
    {
      if step == Authorize(t) {
        Authorized(w, t, v, ttl);
      } else {
        LauncherIsOld(w, step, v, ttl, t);
        StillLaunching(w, step, v, ttl, t, v.threads[t].flight);
      }
    }
  }

  lemma Authorized(w: World, t: nat, v: World, ttl: int)
    requires LaunchesOk(w.launches, w.core, w.now, ttl) && LauncherOk(w.threads, w.launches, w.core, w.now, ttl)
    requires Next(w, Authorize(t), v, ttl) && t in v.threads && v.threads[t].Launching?
    ensures forall i :: 0 <= i < |v.launches| && v.launches[i].generation == v.core.generation ==>
      v.launches[i].at + ttl <= v.now
  {
    RefreshKeeps(w.launches, w.core, w.now, ttl);
  }

  // configurations and the server

  lemma ConfigsKept(w: World, step: Step, v: World, ttl: int)
    requires ConfigsOk(w) && ServerOk(w) && Next(w, step, v, ttl)
    ensures ConfigsOk(v)
  {
    hide Next, ServerOk;
    if Quiet(step) {
      ConfigsKeptQuietly(w, step, v, ttl);
    } else {
      ConfigsMoved(w, step, v, ttl);
    }
  }

  /** Where the file and the threads of a quiet step come from. */
  lemma QuietSources(w: World, step: Step, v: World, ttl: int)
    requires Next(w, step, v, ttl) && Quiet(step)
    ensures w.installed <= v.installed && v.enrolled == w.enrolled
    ensures v.disk == w.disk
            || (step.SaveSwitch? && step.t in w.threads && w.threads[step.t].Switching?
                && v.disk == w.threads[step.t].config)
            || (step.SaveApproval? && step.t in w.threads && w.threads[step.t].Approving? &&
                v.disk == Enrolled(w.threads[step.t].node, w.threads[step.t].ticket.credential))
    ensures forall t :: t in v.threads && v.threads[t].Switching? ==>
                          t in w.threads && w.threads[t].Switching? && w.threads[t].config == v.threads[t].config
    ensures forall t :: t in v.threads && v.threads[t].Approving? ==>
                          || (t in w.threads && w.threads[t].Approving? &&
                              w.threads[t].node == v.threads[t].node && w.threads[t].ticket == v.threads[t].ticket)
                          || Reply(v.threads[t].ticket.id, P.Digest(v.threads[t].ticket.credential),
                                   v.threads[t].node) in w.replies
  {
    hide Next;
    if OfServer(step) {
      ServerStep(w, step, v, ttl);
    } else {
      QuietHere(w, step, v, ttl);
      SourcesHere(w, step, v, ttl);
    }
  }

  lemma SourcesHere(w: World, step: Step, v: World, ttl: int)
    requires Next(w, step, v, ttl) && Quiet(step) && !OfServer(step)
    ensures v.disk == w.disk
            || (step.SaveSwitch? && step.t in w.threads && w.threads[step.t].Switching?
                && v.disk == w.threads[step.t].config)
            || (step.SaveApproval? && step.t in w.threads && w.threads[step.t].Approving? &&
                v.disk == Enrolled(w.threads[step.t].node, w.threads[step.t].ticket.credential))
    ensures forall t :: t in v.threads && v.threads[t].Switching? ==>
                          t in w.threads && w.threads[t].Switching? && w.threads[t].config == v.threads[t].config
    ensures forall t :: t in v.threads && v.threads[t].Approving? ==>
                          || (t in w.threads && w.threads[t].Approving? &&
                              w.threads[t].node == v.threads[t].node && w.threads[t].ticket == v.threads[t].ticket)
                          || Reply(v.threads[t].ticket.id, P.Digest(v.threads[t].ticket.credential),
                                   v.threads[t].node) in w.replies
  {
    hide Refreshed, Admit, MayLaunch, Landed, TicketCurrent, UpdatePending, PairingEnded;
  }

  lemma ConfigsKeptQuietly(w: World, step: Step, v: World, ttl: int)
    requires ConfigsOk(w) && ServerOk(w) && Next(w, step, v, ttl) && Quiet(step)
    ensures ConfigsOk(v)
  {
    hide Next, Quiet, P.DatabaseOk;
    QuietStep(w, step, v, ttl);
    QuietSources(w, step, v, ttl);
  }

  lemma ConfigsMoved(w: World, step: Step, v: World, ttl: int)
    requires ConfigsOk(w) && ServerOk(w) && Next(w, step, v, ttl) && !Quiet(step)
    ensures ConfigsOk(v)
  {
    hide P.ApprovedAs, P.LapseAll, P.DatabaseOk, Refreshed, Admit, MayLaunch, Landed, TicketCurrent, UpdatePending;
    RefreshedIs(w.core, w.now, ttl);
  }

  lemma ServerKept(w: World, step: Step, v: World, ttl: int)
    requires ServerOk(w) && Next(w, step, v, ttl)
    ensures ServerOk(v) && P.Later(w.db.requests, v.db.requests)
  {
    hide Next, P.Later, P.DatabaseOk;
    if OfServer(step) {
      DecisionKept(w, step, v, ttl);
    } else {
      NothingDecided(w, step, v, ttl);
      P.RequestsAreLater(w.db.requests);
    }
  }

  lemma NothingDecided(w: World, step: Step, v: World, ttl: int)
    requires Next(w, step, v, ttl) && !OfServer(step)
    ensures v.db == w.db && v.replies == w.replies && v.installed == w.installed
  {
    hide Refreshed, Admit, MayLaunch, Activated, Invalidated, Booted, Launched, Landed, TicketCurrent, PairingEnded;
  }

  lemma DecisionKept(w: World, step: Step, v: World, ttl: int)
    requires ServerOk(w) && Next(w, step, v, ttl) && OfServer(step)
    ensures ServerOk(v) && P.Later(w.db.requests, v.db.requests)
  {
    hide Next, ServerOk, P.Later;
    match step
    case Create(id, details, hash, at) => CreationKept(w, id, details, hash, at, v, ttl);
    case Approve(_, _, _, _, _) => ApprovalKept(w, step, v, ttl);
    case Decline(id, at) => DeclineKept(w, id, at, v, ttl);
    case Lapse(at) => LapseKept(w, at, v, ttl);
    case Answer(id, hash, node) => AnswerKept(w, id, hash, node, v, ttl);
  }

  lemma CreationKept(w: World, id: nat, details: P.Details, hash: P.Digest, at: int, v: World, ttl: int)
    requires ServerOk(w) && Next(w, Create(id, details, hash, at), v, ttl)
    ensures ServerOk(v) && P.Later(w.db.requests, v.db.requests)
  {
    hide P.Later, P.DatabaseOk;
    P.OneRequest(w.db, id, P.NewRequest(details, hash, at));
  }

  lemma DeclineKept(w: World, id: nat, at: int, v: World, ttl: int)
    requires ServerOk(w) && Next(w, Decline(id, at), v, ttl)
    ensures ServerOk(v) && P.Later(w.db.requests, v.db.requests)
  {
    hide P.Later, P.DatabaseOk;
    P.RequestIsOk(w.db, id);
    P.OneRequest(w.db, id, v.db.requests[id]);
  }

  lemma LapseKept(w: World, at: int, v: World, ttl: int)
    requires ServerOk(w) && Next(w, Lapse(at), v, ttl)
    ensures ServerOk(v) && P.Later(w.db.requests, v.db.requests)
  {
    hide P.Later, P.DatabaseOk;
    P.AllLapsed(w.db, at);
  }

  lemma AnswerKept(w: World, id: nat, hash: P.Digest, node: nat, v: World, ttl: int)
    requires ServerOk(w) && Next(w, Answer(id, hash, node), v, ttl)
    ensures ServerOk(v) && P.Later(w.db.requests, v.db.requests)
  {
    hide P.Later, P.DatabaseOk;
    P.RequestsAreLater(w.db.requests);
  }

  lemma ApprovalKept(w: World, step: Step, v: World, ttl: int)
    requires ServerOk(w) && Next(w, step, v, ttl) && step.Approve?
    ensures ServerOk(v) && P.Later(w.db.requests, v.db.requests)
  {
    hide P.Later, P.DatabaseOk;
    P.ApprovalOk(w.db, v.db, step.id, step.node, step.group, step.remark, step.at);
  }

  // ---- Whole runs ------------------------------------------------------------------------

  ghost predicate Behaviour(worlds: seq<World>, steps: seq<Step>, ttl: int) {
    && |worlds| == |steps| + 1 && Init(worlds[0])
    && forall i :: 0 <= i < |steps| ==> Next(worlds[i], steps[i], worlds[i + 1], ttl)
  }

  lemma StepKeepsInv(w: World, step: Step, v: World, ttl: int)
    requires Inv(w, ttl) && Next(w, step, v, ttl)
    ensures Inv(v, ttl)
  {
    hide Next, GateOk, RestsOk, FlightsOk, BegunOk, LaunchesOk, LauncherOk, ConfigsOk, ServerOk;
    GateKept(w, step, v, ttl);
    RestsKept(w, step, v, ttl);
    FlightsKept(w, step, v, ttl);
    BegunKept(w, step, v, ttl);
    LaunchesKept(w, step, v, ttl);
    LauncherKept(w, step, v, ttl);
    ConfigsKept(w, step, v, ttl);
    ServerKept(w, step, v, ttl);
  }

  lemma {:induction false} InvAlways(worlds: seq<World>, steps: seq<Step>, ttl: int, i: nat)
    requires Behaviour(worlds, steps, ttl) && i < |worlds|
    ensures Inv(worlds[i], ttl)
  {
    hide Next, Init, Inv;
    if i == 0 {
      InitOk(worlds[0], ttl);
    } else {
      InvAlways(worlds, steps, ttl, i - 1);
      StepKeepsInv(worlds[i - 1], steps[i - 1], worlds[i], ttl);
    }
  }

  /** From the grant of a launch to its finish, whatever the other threads do, no configuration is switched or
      saved, nothing boots and nothing shuts down. */
  lemma {:induction false} NothingMovesDuringALaunch(worlds: seq<World>, steps: seq<Step>, ttl: int, i: nat, j: nat,
                                                     t: nat, flight: Flight)
    requires Behaviour(worlds, steps, ttl) && i <= j < |worlds|
    requires At(worlds[i], t, Launching(flight)) && forall k :: i <= k < j ==> !Releases(steps[k], t)
    ensures At(worlds[j], t, Launching(flight))
    ensures worlds[j].core.generation == flight.generation && !worlds[j].core.shuttingDown
    ensures worlds[j].core.config == worlds[i].core.config && worlds[j].disk == worlds[i].disk
    ensures worlds[j].launches == worlds[i].launches
    decreases j
  {
    hide Next, FlightsOk, BegunOk, LaunchesOk, LauncherOk, ConfigsOk, ServerOk;
    InvAlways(worlds, steps, ttl, j);
    if i < j {
      NothingMovesDuringALaunch(worlds, steps, ttl, i, j - 1, t, flight);
      InvAlways(worlds, steps, ttl, j - 1);
      StillLaunching(worlds[j - 1], steps[j - 1], worlds[j], ttl, t, flight);
    }
    assert Rests(worlds[j].threads[t], worlds[j].core);
  }

  /** A pending update always belongs to the current generation. */
  lemma PendingIsCurrent(worlds: seq<World>, steps: seq<Step>, ttl: int, i: nat)
    requires Behaviour(worlds, steps, ttl) && i < |worlds| && worlds[i].core.pending.Some?
    ensures var launches := worlds[i].launches;
            launches != []
              && launches[|launches| - 1] == Launch(worlds[i].core.generation, worlds[i].core.pending.value.at)
  {
    hide Next, GateOk, FlightsOk, BegunOk, LauncherOk, ConfigsOk, ServerOk;
    InvAlways(worlds, steps, ttl, i);
  }

  /** Two recorded launches of one generation are at least the lifetime of a pending update apart. */
  lemma LaunchesApart(worlds: seq<World>, steps: seq<Step>, ttl: int, i: nat, a: nat, b: nat)
    requires Behaviour(worlds, steps, ttl) && i < |worlds| && a < b < |worlds[i].launches|
    requires worlds[i].launches[a].generation == worlds[i].launches[b].generation
    ensures worlds[i].launches[a].at + ttl <= worlds[i].launches[b].at
  {
    hide Next, GateOk, FlightsOk, BegunOk, LauncherOk, ConfigsOk, ServerOk;
    InvAlways(worlds, steps, ttl, i);
    assert Apart(worlds[i].launches[a], worlds[i].launches[b], ttl);
  }

  /** No two checks run for one generation at a time. */
  lemma OneFlightPerGeneration(worlds: seq<World>, steps: seq<Step>, ttl: int, i: nat, t: nat, u: nat)
    requires Behaviour(worlds, steps, ttl) && i < |worlds|
    requires t in worlds[i].threads && u in worlds[i].threads && t != u
    requires worlds[i].threads[t].Flies() && worlds[i].threads[u].Flies()
    ensures worlds[i].threads[t].flight.generation != worlds[i].threads[u].flight.generation
  {
    hide Next, GateOk, BegunOk, LaunchesOk, LauncherOk, ConfigsOk, ServerOk;
    InvAlways(worlds, steps, ttl, i);
  }

  lemma GenerationsGrow(w: World, step: Step, v: World, ttl: int)
    requires Next(w, step, v, ttl) && !step.Restart?
    ensures w.core.generation <= v.core.generation
    ensures NobodyBoots(w.threads) && v.core.generation == w.core.generation ==>
              v.core.config == w.core.config && NobodyBoots(v.threads)
  {
    hide Next, NobodyBoots;
    if OfServer(step) {
      ServerStep(w, step, v, ttl);
    } else {
      CurrentStays(w, step, v, ttl);
    }
  }

  lemma {:induction false} GenerationFixesConfig(worlds: seq<World>, steps: seq<Step>, ttl: int, i: nat, j: nat)
    requires Behaviour(worlds, steps, ttl) && i <= j < |worlds| && worlds[i].gate.None?
    requires forall k :: i <= k < j ==> !steps[k].Restart?
    ensures worlds[i].core.generation <= worlds[j].core.generation
    ensures worlds[j].core.generation == worlds[i].core.generation ==>
              worlds[j].core.config == worlds[i].core.config && NobodyBoots(worlds[j].threads)
    decreases j
  {
    hide Next, FlightsOk, BegunOk, LaunchesOk, LauncherOk, ConfigsOk, ServerOk;
    if i < j {
      GenerationFixesConfig(worlds, steps, ttl, i, j - 1);
      GenerationsGrow(worlds[j - 1], steps[j - 1], worlds[j], ttl);
    } else {
      InvAlways(worlds, steps, ttl, i);
    }
  }

  /** The result of a check is delivered only under the configuration it was begun with. */
  lemma ResultIsForItsConfiguration(worlds: seq<World>, steps: seq<Step>, ttl: int, i: nat, j: nat, t: nat,
                                    flight: Flight)
    requires Behaviour(worlds, steps, ttl) && i < j < |steps| && forall k :: i <= k < j ==> !steps[k].Restart?
    requires steps[i] == BeginCheck(t) && !At(worlds[i], t, Checking(flight)) && At(worlds[i + 1], t, Checking(flight))
    requires steps[j].FinishFlight? && At(worlds[j], steps[j].t, Checking(flight)) && Delivers(worlds[j].core, flight)
    ensures worlds[j].core.config == worlds[i].core.config
  {
    hide GateOk, FlightsOk, BegunOk, LaunchesOk, LauncherOk, ConfigsOk, ServerOk, P.ApprovedAs, P.LapseAll;
    assert Next(worlds[i], steps[i], worlds[i + 1], ttl);
    GenerationFixesConfig(worlds, steps, ttl, i, j);
  }

  /** The second look of an approval, after its save, always finds what the first one found. */
  lemma RecheckNeverFails(worlds: seq<World>, steps: seq<Step>, ttl: int, i: nat, t: nat)
    requires Behaviour(worlds, steps, ttl) && i < |steps| && steps[i] == EndApproval(t)
    ensures t in worlds[i].threads && worlds[i].threads[t].Approving?
    ensures TicketCurrent(worlds[i].core, worlds[i].threads[t].generation, worlds[i].threads[t].ticket.id)
    ensures worlds[i + 1].core.config == Enrolled(worlds[i].threads[t].node, worlds[i].threads[t].ticket.credential)
    ensures worlds[i + 1].core.generation == worlds[i].core.generation + 1
  {
    hide GateOk, FlightsOk, BegunOk, LaunchesOk, LauncherOk, ConfigsOk, ServerOk, P.ApprovedAs, P.LapseAll;
    InvAlways(worlds, steps, ttl, i);
    assert Next(worlds[i], steps[i], worlds[i + 1], ttl);
    assert Rests(worlds[i].threads[t], worlds[i].core);
  }

  predicate OfPoll(step: Step) {
    step.EndPoll? || step.LeavePoll? || step.BeginApproval? || step.SaveApproval? || step.EndApproval?
  }

  /** Every step of a poll of an older generation, or in a shutdown, be it the save or the switch of an approval,
      leaves the configuration, the status and the file alone. */
  lemma StalePollChangesNothing(worlds: seq<World>, steps: seq<Step>, ttl: int, i: nat)
    requires Behaviour(worlds, steps, ttl) && i < |steps| && OfPoll(steps[i]) && steps[i].t in worlds[i].threads
    requires worlds[i].threads[steps[i].t].Polling? || worlds[i].threads[steps[i].t].Approving?
    requires worlds[i].threads[steps[i].t].generation != worlds[i].core.generation || worlds[i].core.shuttingDown
    ensures worlds[i + 1].core == worlds[i].core && worlds[i + 1].disk == worlds[i].disk
    ensures worlds[i + 1].gate == worlds[i].gate && worlds[i + 1].threads == worlds[i].threads - {steps[i].t}
  {
    hide GateOk, FlightsOk, BegunOk, LaunchesOk, LauncherOk, ConfigsOk, ServerOk, P.ApprovedAs, P.LapseAll;
    InvAlways(worlds, steps, ttl, i);
    assert Next(worlds[i], steps[i], worlds[i + 1], ttl);
    assert Rests(worlds[i].threads[steps[i].t], worlds[i].core);
  }

  /** The agent is enrolled as a node, in memory or in its file, only with a credential that Enroll was given
      or that an approved request installed for that node. */
  lemma EnrolledByApproval(worlds: seq<World>, steps: seq<Step>, ttl: int, i: nat)
    requires Behaviour(worlds, steps, ttl) && i < |worlds|
    ensures Granted(worlds[i].core.config, worlds[i].installed, worlds[i].enrolled)
    ensures Granted(worlds[i].disk, worlds[i].installed, worlds[i].enrolled)
  {
    hide Next, Granted, GateOk, FlightsOk, BegunOk, LaunchesOk, LauncherOk;
    InvAlways(worlds, steps, ttl, i);
  }

  lemma NewlyInstalled(w: World, step: Step, v: World, ttl: int, node: nat, hash: P.Digest)
    requires Next(w, step, v, ttl) && (node, hash) !in w.installed && (node, hash) in v.installed
    ensures step.Approve? && step.node == node && step.id in w.db.requests
    ensures var request := w.db.requests[step.id];
            request.hash == hash && request.state == P.Pending && step.at < request.expiresAt
    ensures node in v.db.credentials && v.db.credentials[node].hash == hash
  {
    hide Refreshed, Admit, MayLaunch, Activated, Invalidated, Booted, Launched, Landed, TicketCurrent, PairingEnded;
  }

  /** What was installed was installed by the approval of a pending request that had not expired. */
  lemma {:induction false} InstalledByApproval(worlds: seq<World>, steps: seq<Step>, ttl: int, i: nat, node: nat,
                                               hash: P.Digest)
    returns (k: nat)
    requires Behaviour(worlds, steps, ttl) && i < |worlds| && (node, hash) in worlds[i].installed
    ensures k < i && steps[k].Approve? && steps[k].node == node
    ensures steps[k].id in worlds[k].db.requests
    ensures var request := worlds[k].db.requests[steps[k].id];
            request.hash == hash && request.state == P.Pending && steps[k].at < request.expiresAt
    ensures node in worlds[k + 1].db.credentials && worlds[k + 1].db.credentials[node].hash == hash
  {
    hide Next;
    if i > 0 {
      if (node, hash) in worlds[i - 1].installed {
        k := InstalledByApproval(worlds, steps, ttl, i - 1, node, hash);
      } else {
        k := i - 1;
        NewlyInstalled(worlds[k], steps[k], worlds[i], ttl, node, hash);
      }
    }
  }

  lemma {:induction false} RequestsLater(worlds: seq<World>, steps: seq<Step>, ttl: int, i: nat, j: nat)
    requires Behaviour(worlds, steps, ttl) && i <= j < |worlds|
    ensures P.Later(worlds[i].db.requests, worlds[j].db.requests)
    decreases j
  {
    hide Next, GateOk, FlightsOk, BegunOk, LaunchesOk, LauncherOk, ConfigsOk, ServerOk, P.Later;
    if i < j {
      RequestsLater(worlds, steps, ttl, i, j - 1);
      InvAlways(worlds, steps, ttl, j - 1);
      ServerKept(worlds[j - 1], steps[j - 1], worlds[j], ttl);
      P.LaterTwice(worlds[i].db.requests, worlds[j - 1].db.requests, worlds[j].db.requests);
    } else {
      P.RequestsAreLater(worlds[i].db.requests);
    }
  }

  /** A request that has left pending never changes again. */
  lemma DecisionIsFinal(worlds: seq<World>, steps: seq<Step>, ttl: int, i: nat, j: nat, id: nat)
    requires Behaviour(worlds, steps, ttl) && i <= j < |worlds|
    requires id in worlds[i].db.requests && worlds[i].db.requests[id].state != P.Pending
    ensures id in worlds[j].db.requests && worlds[j].db.requests[id] == worlds[i].db.requests[id]
    ensures P.RequestOk(worlds[i].db.requests[id])
  {
    hide Next, GateOk, FlightsOk, BegunOk, LaunchesOk, LauncherOk, ConfigsOk;
    InvAlways(worlds, steps, ttl, i);
    RequestsLater(worlds, steps, ttl, i, j);
    P.DecidedOnce(worlds[i].db.requests, worlds[j].db.requests, id);
  }
}
