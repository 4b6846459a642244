/** Images, checks and tasks of a managed upgrade, and the pure decisions about them. */
module UpdateTypes {
  import opened Prelude

  datatype Service = Backend | Web

  /** A canonical semantic version is known by its place in the version order. */
  datatype Version = Malformed | Release(rank: nat)

  /** The local tag `<project>-rollback-<service>:<task id>`. */
  datatype Alias = NoAlias | RollbackTag(service: Service, task: nat)

  datatype Image = Image(repository: string, version: Version, digest: string, id: string, alias: Alias)

  const BLANK := Image("", Malformed, "", "", NoAlias)

  datatype Pair = Pair(backend: Image, web: Image)
  {
    function Of(service: Service): Image {
      if service == Backend then backend else web
    }

    function With(service: Service, image: Image): (r: Pair)
      ensures r.Of(service) == image
      ensures forall other :: other != service ==> r.Of(other) == Of(other)
    {
      if service == Backend then this.(backend := image) else this.(web := image)
    }
  }

  datatype Stage =
    | Checking
    | BackingUp
    | Pulling
    | SwitchingBackend
    | CheckingBackend
    | SwitchingWeb
    | CheckingWeb
    | Stabilizing
    | Cleaning
    | RollingBack
    | Succeeded
    | Failed
    | ManualIntervention
  {
    predicate Terminal() {
      Succeeded? || Failed? || ManualIntervention?
    }

    /** No container has been touched yet. */
    predicate Early() {
      Checking? || BackingUp? || Pulling?
    }

    /** From the first switch on, and not yet over. */
    predicate Late() {
      !Early() && !Terminal()
    }
  }

  datatype Cleanup = NotRun | Complete | Pending

  datatype Code =
    | NoCode
    | StateInvalid
    | BackupFailed
    | PullFailed
    | BackendSwitchFailed
    | BackendUnhealthy
    | WebSwitchFailed
    | WebUnhealthy
    | StabilityFailed
    | RollbackFailed
    | CleanupPending
    | UpdaterRestarted

  datatype Task = Task(
    id: nat,
    original: Pair,
    target: Pair,
    stage: Stage,
    backupPath: string,
    createdAt: int,
    startedAt: int,
    finishedAt: Option<int>,
    rolledBack: bool,
    cleanup: Cleanup,
    code: Code)

  datatype CheckResult = CheckResult(current: Pair, target: Pair, available: bool, checkedAt: int)

  datatype Persistent = Persistent(lastCheck: Option<CheckResult>, task: Option<Task>)

  const EMPTY := Persistent(None, None)

  predicate HasRollbackImages(pair: Pair): (all: bool)
    ensures all <==> forall service: Service :: pair.Of(service).digest != "" && pair.Of(service).alias != NoAlias
  {
    assert pair.Of(Backend) == pair.backend && pair.Of(Web) == pair.web;
    pair.backend.digest != "" && pair.web.digest != "" && pair.backend.alias != NoAlias && pair.web.alias != NoAlias
  }

  /** Negative, zero or positive; a malformed version is below every release. */
  function Compare(v: Version, w: Version): (r: int)
    ensures r == 0 <==> v == w
    ensures r > 0 <==> v.Release? && (w.Release? ==> v.rank > w.rank)
  {
    match (v, w)
    case (Malformed, Malformed) => 0
    case (Malformed, Release(_)) => -1
    case (Release(_), Malformed) => 1
    case (Release(m), Release(n)) => m - n
  }

  predicate SameVersion(pair: Pair) {
    pair.backend.version == pair.web.version
  }

  predicate ActiveOrManual(state: Persistent) {
    state.task.Some? && (!state.task.value.stage.Terminal() || state.task.value.stage == ManualIntervention)
  }

  predicate Unfinished(state: Persistent) {
    state.task.Some? && !state.task.value.stage.Terminal()
  }

  /** The two facts every persisted state keeps about versions. */
  predicate VersionsOk(state: Persistent) {
    && (state.lastCheck.Some? ==>
          var check := state.lastCheck.value;
          && SameVersion(check.current) && SameVersion(check.target)
          && (check.available <==> Compare(check.target.backend.version, check.current.backend.version) > 0))
    && (state.task.Some? ==> state.lastCheck.Some? && SameVersion(state.task.value.target))
  }

  datatype CheckError = InspectFailed(service: Service) | RegistryFailed | Configuration

  predicate ValidImage(image: Image, repository: string) {
    image.repository == repository && image.digest != "" && image.version != Malformed
  }

  /** Both images have their repository, a digest and one version. */
  predicate ValidPair(pair: Pair, backendRepo: string, webRepo: string): (valid: bool)
    ensures valid <==>
            && pair.backend.repository == backendRepo && pair.web.repository == webRepo
            && (forall service: Service :: pair.Of(service).digest != "" && pair.Of(service).version.Release?)
            && pair.web.version == pair.backend.version
  {
    assert pair.Of(Backend) == pair.backend && pair.Of(Web) == pair.web;
    ValidImage(pair.backend, backendRepo) && ValidImage(pair.web, webRepo) && SameVersion(pair)
  }

  /** Checker.Check. None stands for an inspection or a registry lookup that failed. */
  function Check(
    backend: Option<Image>, web: Option<Image>, stableBackend: Option<Image>, stableWeb: Option<Image>,
    backendRepo: string, webRepo: string, now: int)
    : (r: Result<CheckResult, CheckError>)
    ensures r.Ok? <==>
            && backend.Some? && web.Some? && stableBackend.Some? && stableWeb.Some?
            && backendRepo != "" && webRepo != ""
            && ValidPair(Pair(backend.value, web.value), backendRepo, webRepo)
            && ValidPair(Pair(stableBackend.value, stableWeb.value), backendRepo, webRepo)
            && Compare(stableBackend.value.version, backend.value.version) >= 0
    ensures r.Ok? ==>
              && VersionsOk(Persistent(Some(r.value), None))
              && Compare(r.value.target.backend.version, r.value.current.backend.version) >= 0
              && ValidPair(r.value.current, backendRepo, webRepo) && ValidPair(r.value.target, backendRepo, webRepo)
              && r.value.checkedAt == now
    // the check is about what was inspected and what was resolved
    ensures r.Ok? ==>
              && r.value.current == Pair(backend.value, web.value)
              && r.value.target == Pair(stableBackend.value, stableWeb.value)
              && backend.value.version.Release? && stableBackend.value.version.Release?
              && (r.value.available <==> stableBackend.value.version.rank > backend.value.version.rank)
    // an error names the first thing that is missing
    ensures r.Err? && r.error.InspectFailed? ==>
              if r.error.service == Backend then backend.None? else backend.Some? && web.None?
    ensures r == Err(RegistryFailed) ==>
              && backend.Some? && web.Some? && (stableBackend.None? || stableWeb.None?)
              && ValidPair(Pair(backend.value, web.value), backendRepo, webRepo)
    ensures r == Err(Configuration) ==>
              || backendRepo == "" || webRepo == ""
              || (backend.Some? && web.Some?
                  && (!ValidPair(Pair(backend.value, web.value), backendRepo, webRepo)
                      || (stableBackend.Some? && stableWeb.Some?)))
  {
    if backendRepo == "" || webRepo == "" then Err(Configuration)
    else if backend.None? then Err(InspectFailed(Backend))
    else if web.None? then Err(InspectFailed(Web))
    else
      var current := Pair(backend.value, web.value);
      if !ValidPair(current, backendRepo, webRepo) then Err(Configuration)
      else if stableBackend.None? || stableWeb.None? then Err(RegistryFailed)
      else
        var target := Pair(stableBackend.value, stableWeb.value);
        if !ValidPair(target, backendRepo, webRepo) then Err(Configuration)
        else
          var comparison := Compare(target.backend.version, current.backend.version);
          if comparison < 0 then Err(Configuration)
          else Ok(CheckResult(current, target, comparison > 0, now))
  }

  datatype StartError = BadVersion | TaskActive | CheckExpired | Unavailable | TargetMismatch

  /** The last check can be relied on. */
  predicate Fresh(state: Persistent, now: int, ttl: int) {
    state.lastCheck.Some? && state.lastCheck.value.checkedAt <= now < state.lastCheck.value.checkedAt + ttl
  }

  /** The decision Manager.Start takes on the state it loads: each refusal has its own reason, and a running or
      manual task goes before all that is wrong with the check. */
  function StartDecision(state: Persistent, version: Version, now: int, ttl: int): (r: Option<StartError>)
    ensures r == Some(BadVersion) <==> version == Malformed
    ensures r == Some(TaskActive) <==>
              version != Malformed && state.task.Some? && state.task.value.stage !in {Succeeded, Failed}
    ensures r == Some(CheckExpired) ==> !Fresh(state, now, ttl)
    ensures r == Some(Unavailable) ==> Fresh(state, now, ttl) && !state.lastCheck.value.available
    ensures r == Some(TargetMismatch) ==>
              && Fresh(state, now, ttl) && state.lastCheck.value.available
              && !(state.lastCheck.value.target.backend.version == state.lastCheck.value.target.web.version == version)
    ensures r == None ==> Fresh(state, now, ttl) && state.lastCheck.value.available
  {
    if version == Malformed then Some(BadVersion)
    else if ActiveOrManual(state) then Some(TaskActive)
    else if state.lastCheck.None? || state.lastCheck.value.checkedAt > now ||
            now - state.lastCheck.value.checkedAt >= ttl then Some(CheckExpired)
    else if !state.lastCheck.value.available then Some(Unavailable)
    else if state.lastCheck.value.target.backend.version != version ||
            state.lastCheck.value.target.web.version != version then Some(TargetMismatch)
    else None
  }

  /** What the status view advertises: the latest version, and whether it may be started. */
  datatype StatusView = StatusView(latest: Option<Version>, updateAvailable: bool)

  function View(state: Persistent): StatusView {
    var latest := if state.lastCheck.Some? then Some(state.lastCheck.value.target.backend.version) else None;
    var available := state.lastCheck.Some? && state.lastCheck.value.available;
    StatusView(latest, available && !ActiveOrManual(state))
  }

  /** A version is started exactly when the status view advertises it and the check is fresh. */
  lemma StartAgreesWithView(state: Persistent, version: Version, now: int, ttl: int)
    requires VersionsOk(state)
    ensures StartDecision(state, version, now, ttl) == None <==>
            && View(state).updateAvailable
            && View(state).latest == Some(version)
            && Fresh(state, now, ttl)
  {
    if View(state).updateAvailable {
      var check := state.lastCheck.value;
      assert Compare(check.target.backend.version, check.current.backend.version) > 0;
      assert check.target.backend.version != Malformed;
    }
  }
}
