/** The state of the agent's lifecycle controller, and the sections of code
    that change it while they hold its mutex. */
module Controller {
  import opened Prelude

  /** A pairing request as the agent keeps it. */
  datatype Ticket = Ticket(id: nat, credential: nat, expires: int)

  datatype Config = NoConfig | Awaiting(ticket: Ticket) | Enrolled(node: nat, credential: nat)

  datatype State =
    | Stopped | Waiting | Degraded | Starting | Updating | Failed
    | PairingRecovery | WaitingForApproval | PairingExpired | PairingRejected
    | Reported(text: nat)

  datatype Status = Status(state: State, node: Option<nat>)

  /** One running update check. */
  datatype Flight = Flight(id: nat, generation: nat)

  /** A launched update helper, and when its launch was recorded. */
  datatype Pending = Pending(version: nat, at: int)

  datatype Core = Core(
    generation: nat,
    config: Config,
    status: Status,
    flight: Option<Flight>,
    pending: Option<Pending>,
    shuttingDown: bool)

  const INITIAL := Core(1, NoConfig, Status(Stopped, None), None, None, false)

  // ---- What the sections do ------------------------------------------------------

  predicate UpdatePending(core: Core, now: int, ttl: int) {
    core.pending.Some? && now < core.pending.value.at + ttl
  }

  /** hasPendingUpdate forgets a helper whose time is up. */
  function Refreshed(core: Core, now: int, ttl: int): Core {
    if UpdatePending(core, now, ttl) then core else core.(pending := None)
  }

  /** invalidateGenerationLocked */
  function Invalidated(core: Core): Core {
    var next := core.generation + 1;
    core.(generation := next, config := NoConfig, pending := None,
          flight := if core.flight.Some? && core.flight.value.generation != next then None else core.flight)
  }

  function StatusOf(config: Config): Status {
    match config
    case Enrolled(node, _) => Status(Starting, Some(node))
    case _ => Status(WaitingForApproval, None)
  }

  /** activateConfigurationLocked and the status that goes with it. */
  function Activated(core: Core, config: Config): Core {
    Invalidated(core).(config := config, status := StatusOf(config))
  }

  /** What CheckUpdate decides. */
  datatype Admission = Refused | Joins(flight: Flight) | Answered(version: nat) | Begins

  function Admit(core: Core, now: int, ttl: int): Admission {
    if core.shuttingDown then Refused
    else if core.flight.Some? && core.flight.value.generation == core.generation then Joins(core.flight.value)
    else if UpdatePending(core, now, ttl) then Answered(core.pending.value.version)
    else Begins
  }

  /** authorizeUpdateLaunch grants a launch. */
  predicate MayLaunch(core: Core, generation: nat, now: int, ttl: int) {
    !core.shuttingDown && core.generation == generation && !UpdatePending(core, now, ttl)
  }

  function Launched(core: Core, version: nat, now: int): Core {
    core.(status := core.status.(state := Updating), pending := Some(Pending(version, now)))
  }

  function Landed(core: Core, flight: Flight): Core {
    if core.flight == Some(flight) then core.(flight := None) else core
  }

  /** A finished check is delivered to those who wait for it. */
  predicate Delivers(core: Core, flight: Flight) {
    core.generation == flight.generation
  }

  predicate TicketCurrent(core: Core, generation: nat, id: nat) {
    core.generation == generation && core.config.Awaiting? && core.config.ticket.id == id && !core.shuttingDown
  }

  /** setPairingTerminalState */
  function PairingEnded(core: Core, generation: nat, id: nat, state: State): Core {
    if TicketCurrent(core, generation, id) then core.(status := Status(state, None)) else core
  }

  class Controller {
    var generation: nat
    var config: Config
    var status: Status
    var flight: Option<Flight>
    var updatePending: bool
    var pendingUpdate: nat
    var pendingAt: int
    var shuttingDown: bool
    var lifetimeDone: bool    // the context of the service is cancelled
    var stopped: set<nat>     // the generations whose own context is cancelled
    const ttl: int

    /** The work of a generation, its update scheduler and its pairing poll among it, goes on as long as neither its
        own context nor that of the service is cancelled. */
    predicate Runs(g: nat)
      reads this
    {
      1 <= g <= generation && g !in stopped && !lifetimeDone
    }

    /** Only the current generation is at work, and nothing is after a shutdown. */
    ghost predicate Valid(): (valid: bool)
      reads this
      ensures valid ==> forall g: nat :: Runs(g) <==> g == generation && !shuttingDown
    {
      && generation >= 1 && lifetimeDone == shuttingDown
      && (forall g: nat :: g in stopped ==> g < generation || (g == generation && shuttingDown))
      && forall g: nat :: 1 <= g < generation ==> g in stopped
    }

    function Current(): Core
      reads this
    {
      Core(generation, config, status, flight, if updatePending then Some(Pending(pendingUpdate, pendingAt)) else None,
           shuttingDown)
    }

    constructor (ttl: int)
      ensures Valid() && Current() == INITIAL && this.ttl == ttl
    {
      generation, config, status, flight := 1, NoConfig, Status(Stopped, None), None;
      updatePending, pendingUpdate, pendingAt, shuttingDown := false, 0, 0, false;
      lifetimeDone, stopped := false, {};
      this.ttl := ttl;
    }

    method HasPendingUpdate(now: int) returns (r: bool)
      requires Valid()
      modifies this
      ensures Valid()
      ensures Current() == Refreshed(old(Current()), now, ttl) && r == updatePending
      ensures r <==> old(updatePending) && now < old(pendingAt) + ttl
      ensures Current() == old(Current()).(pending := if r then old(Current()).pending else None)
    {
      if !updatePending {
        return false;
      }
      if now < pendingAt + ttl {
        return true;
      }
      updatePending, pendingUpdate, pendingAt := false, 0, 0;
      r := false;
    }

    method InvalidateGeneration()
      requires Valid()
      modifies this
      ensures Valid()
      ensures Current() == Invalidated(old(Current()))
      ensures generation == old(generation) + 1 && config == NoConfig && !updatePending && !Runs(old(generation))
      ensures flight == (if old(flight).Some? && old(flight).value.generation == generation then old(flight) else None)
      ensures status == old(status) && shuttingDown == old(shuttingDown)
      ensures Runs(generation) <==> !shuttingDown
    {
      stopped := stopped + {generation};
      generation := generation + 1;
      config := NoConfig;
      if flight.Some? && flight.value.generation != generation {
        flight := None;
      }
      updatePending, pendingUpdate, pendingAt := false, 0, 0;
    }

    method Activate(next: Config)
      requires Valid()
      modifies this
      ensures Valid()
      ensures Current() == Activated(old(Current()), next)
      ensures generation == old(generation) + 1 && config == next && !updatePending && !Runs(old(generation))
      ensures status == if next.Enrolled? then Status(Starting, Some(next.node)) else Status(WaitingForApproval, None)
    {
      InvalidateGeneration();
      config := next;
      status := StatusOf(next);
    }

    /** The section of CheckUpdate that decides what a caller gets. */
    method BeginCheck(id: nat, now: int) returns (r: Admission)
      requires Valid()
      modifies this
      ensures Valid()
      ensures r == Admit(old(Current()), now, ttl)
      // refused in a shutdown only; else it joins the flight of this generation, if there is one; else the pending
      // update answers while its time lasts
      ensures r == Refused <==> shuttingDown
      ensures r.Joins? <==> !shuttingDown && old(flight).Some? && old(flight).value.generation == generation
      ensures r.Joins? ==> Some(r.flight) == old(flight)
      ensures r.Answered? ==> old(updatePending) && now < old(pendingAt) + ttl && r.version == old(pendingUpdate)
      ensures r == Begins ==> !(old(updatePending) && now < old(pendingAt) + ttl)
      ensures Current() == if r == Begins then old(Current()).(flight := Some(Flight(id, generation)))
        else old(Current())
    {
      if shuttingDown {
        return Refused;
      }
      if flight.Some? && flight.value.generation == generation {
        return Joins(flight.value);
      }
      if updatePending && now < pendingAt + ttl {
        return Answered(pendingUpdate);
      }
      flight := Some(Flight(id, generation));
      r := Begins;
    }

    method Authorize(wanted: nat, now: int) returns (granted: bool)
      ensures granted <==> MayLaunch(Current(), wanted, now, ttl)
      ensures granted <==> !shuttingDown && generation == wanted && !(updatePending && now < pendingAt + ttl)
    {
      granted := !shuttingDown && generation == wanted && !(updatePending && now < pendingAt + ttl);
    }

    method FinishLaunch(launched: Option<nat>, now: int)
      requires Valid()
      modifies this
      ensures Valid()
      ensures Current() == if launched.Some? then Launched(old(Current()), launched.value, now) else old(Current())
      ensures launched.Some? ==>
                && updatePending && pendingUpdate == launched.value && pendingAt == now && status.state == Updating
                && generation == old(generation) && config == old(config) && flight == old(flight)
    {
      if launched.Some? {
        status := status.(state := Updating);
        updatePending, pendingUpdate, pendingAt := true, launched.value, now;
      }
    }

    /** The end of executeUpdateFlight: the waiting callers get the result only if the configuration is still the one
        checked. */
    method FinishFlight(done: Flight, result: nat) returns (r: Option<nat>)
      requires Valid()
      modifies this
      ensures Valid()
      ensures Current() == Landed(old(Current()), done)
      ensures r == if Delivers(old(Current()), done) then Some(result) else None
      ensures r == if generation == done.generation then Some(result) else None
      ensures flight == (if old(flight) == Some(done) then None else old(flight)) && generation == old(generation)
    {
      r := if generation == done.generation then Some(result) else None;
      if flight == Some(done) {
        flight := None;
      }
    }

    method SetPairingTerminalState(wanted: nat, id: nat, state: State)
      requires Valid()
      modifies this
      ensures Valid()
      ensures Current() == PairingEnded(old(Current()), wanted, id, state)
      ensures config == old(config) && generation == old(generation)
      ensures this.status ==
              if generation == wanted && config.Awaiting? && config.ticket.id == id && !shuttingDown
              then Status(state, None) else old(this.status)
    {
      if generation != wanted || !config.Awaiting? || config.ticket.id != id || shuttingDown {
        return;
      }
      status := Status(state, None);
    }

    method BeginShutdown()
      requires Valid()
      modifies this
      ensures Valid()
      ensures Current() == old(Current()).(shuttingDown := true)
      ensures forall g: nat :: !Runs(g)
    {
      shuttingDown := true;
      lifetimeDone := true;
      stopped := stopped + {generation};
    }
  }
}
