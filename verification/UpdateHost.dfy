/** The containers an upgrade acts on, what an action may do to them, and what
    holds between them and a task at every point of every run. */
module UpdateHost {
  import opened Prelude
  import opened UpdateTypes

  /** What runs: None when a service has not exactly one container. */
  datatype Running = Running(backend: Option<Image>, web: Option<Image>)
  {
    function Of(service: Service): Option<Image> {
      if service == Backend then backend else web
    }

    function With(service: Service, image: Option<Image>): Running {
      if service == Backend then this.(backend := image) else this.(web := image)
    }
  }

  datatype Host = Host(running: Running, tags: map<Alias, Image>)

  datatype Action =
    | Inspect(service: Service)
    | InspectRollback(service: Service)
    | CreateAlias(service: Service)
    | Backup
    | Pull(service: Service)
    | DeployTarget(service: Service)
    | WaitHealthy(service: Service)
    | DeployRollback(service: Service)
    | WaitRollbackHealthy(service: Service)
    | RemoveOld(service: Service)

  datatype Event = Event(action: Action, ok: bool)

  /** About the persisted task, what the program itself does not keep.
      `start`: what the services ran when the task was first written;
      `attempted`: a deployment of the target was issued for it;
      `cleaned`: stage cleaning has been persisted for it. */
  datatype Facts = Facts(start: Running, attempted: bool, cleaned: bool)

  /** About this updater process.
      `log`: the actions issued, with what they reported;
      `quiet`: no save, load or cancellation error and no death so far;
      `fault`: the stage of the step of the job that failed. */
  datatype Trace = Trace(log: seq<Event>, quiet: bool, fault: Option<Stage>)

  predicate RunsDigest(running: Option<Image>, image: Image) {
    running.Some? && running.value.digest == image.digest
  }

  predicate RunsPair(running: Running, pair: Pair) {
    RunsDigest(running.backend, pair.backend) && RunsDigest(running.web, pair.web)
  }

  /** The recorded original names what the service ran at task start, under the task's own alias. */
  predicate Records(task: Task, start: Running, service: Service) {
    && start.Of(service).Some?
    && start.Of(service).value.digest != ""
    && task.original.Of(service) == start.Of(service).value.(alias := RollbackTag(service, task.id))
  }

  predicate Armed(task: Task, start: Running) {
    Records(task, start, Backend) && Records(task, start, Web)
  }

  predicate AliasIntact(task: Task, start: Running, tags: map<Alias, Image>, service: Service, present: bool) {
    var tag := RollbackTag(service, task.id);
    && (present ==> tag in tags)
    && (tag in tags ==> Some(tags[tag]) == start.Of(service))
  }

  /** A terminal task tells the truth about the containers. */
  predicate Truthful(task: Task, running: Running, start: Running) {
    && (task.stage == Succeeded ==> RunsPair(running, task.target))
    && (task.stage == Failed ==> running == start)
  }

  /** What holds between the persisted task and the containers. */
  predicate TaskOk(task: Task, host: Host, facts: Facts) {
    && Truthful(task, host.running, facts.start)
    && (task.stage.Early() ==> host.running == facts.start && !facts.attempted && !facts.cleaned)
    && (task.stage == Failed && !task.rolledBack ==> !facts.attempted)
    && (task.stage == Cleaning ==> facts.cleaned)
    && (task.stage.Late() || facts.attempted ==>
          && Armed(task, facts.start)
          && AliasIntact(task, facts.start, host.tags, Backend, !facts.cleaned)
          && AliasIntact(task, facts.start, host.tags, Web, !facts.cleaned))
  }

  /** The persisted stages in which the job may issue an action. */
  predicate InStage(action: Action, stage: Stage) {
    match action
    case CreateAlias(_) => stage.Early()
    case DeployTarget(_) => stage == SwitchingBackend || stage == SwitchingWeb
    case DeployRollback(_) => stage == RollingBack
    case RemoveOld(_) => stage == Cleaning
    case _ => true
  }

  /** The error code a failing step reports, by the stage it was performed in. */
  function CodeOf(stage: Stage): Code {
    match stage
    case Checking => StateInvalid
    case BackingUp => BackupFailed
    case Pulling => PullFailed
    case SwitchingBackend => BackendSwitchFailed
    case CheckingBackend => BackendUnhealthy
    case SwitchingWeb => WebSwitchFailed
    case CheckingWeb => WebUnhealthy
    case _ => StabilityFailed
  }

  /** The actions the job performs, and the stages it performs them in. */
  predicate StepOf(action: Action, stage: Stage) {
    match action
    case Inspect(_) => stage == Checking
    case CreateAlias(_) => stage == BackingUp
    case Backup => stage == BackingUp
    case Pull(_) => stage == Pulling
    case DeployTarget(s) => stage == if s == Backend then SwitchingBackend else SwitchingWeb
    case WaitHealthy(s) => stage == Stabilizing || stage == if s == Backend then CheckingBackend else CheckingWeb
    case _ => false
  }

  /** What one container action does; a failing one may or may not have done it. */
  predicate Effect(action: Action, task: Task, done: Task, host: Host, host': Host, ok: bool) {
    match action
    case Inspect(s) =>
      && host' == host
      && (ok ==> host.running.Of(s).Some? && host.running.Of(s).value.digest != "" &&
                 done == task.(original := task.original.With(s, host.running.Of(s).value)))
      && (!ok ==> done == task)
    case InspectRollback(s) =>
      && host' == host && done == task
      && (ok ==>
          && RunsDigest(host.running.Of(s), task.original.Of(s))
          && host.running.Of(s).value.id == task.original.Of(s).id)
    case CreateAlias(s) =>
      var tag := RollbackTag(s, task.id);
      var tagged := host.(tags := host.tags[tag := task.original.Of(s)]);
      && (host' == tagged || (!ok && host' == host))
      && done == task.(original := task.original.With(s, if ok then task.original.Of(s).(alias := tag) else BLANK))
    case Backup =>
      host' == host && done == task.(backupPath := done.backupPath) && (!ok ==> done.backupPath == "")
    case Pull(_) =>
      host' == host && done == task
    case WaitHealthy(s) =>
      host' == host && done == task && (ok ==> host.running.Of(s).Some?)
    case DeployTarget(s) =>
      && host' == host.(running := host.running.With(s, host'.running.Of(s))) && done == task
      && (ok ==> RunsDigest(host'.running.Of(s), task.target.Of(s)))
    case DeployRollback(s) =>
      var tag := RollbackTag(s, task.id);
      && host' == host.(running := host.running.With(s, host'.running.Of(s))) && done == task
      && (ok ==> tag in host.tags && host'.running.Of(s) == Some(host.tags[tag]))
    case WaitRollbackHealthy(s) =>
      host' == host && done == task
        && (ok ==> host.running.Of(s).Some? && host.running.Of(s).value.id == task.original.Of(s).id)
    case RemoveOld(s) =>
      var tag := RollbackTag(s, task.id);
      && done == task && (host' == host || host' == host.(tags := host.tags - {tag}))
      && (ok ==> tag !in host'.tags)
  }

  /** The facts once an action is issued, and once a task of the given stage is on disk. */
  function Issuing(action: Action, facts: Facts): Facts {
    if action.DeployTarget? then facts.(attempted := true) else facts
  }

  function Writing(stage: Stage, facts: Facts): Facts {
    if stage == Cleaning then facts.(cleaned := true) else facts
  }

  lemma CleaningIsRecorded(task: Option<Task>, host: Host, facts: Facts)
    requires task.Some? ==> TaskOk(task.value, host, facts)
    ensures task.Some? ==> Writing(task.value.stage, facts) == facts
  {
  }

  /** An action issued in its stage keeps the persisted task true, whatever it does. */
  lemma ActionKeepsTask(action: Action, task: Task, done: Task, persisted: Task, host: Host, host': Host, ok: bool,
                        facts: Facts)
    requires TaskOk(persisted, host, facts)
    requires persisted.id == task.id && !persisted.stage.Terminal() && InStage(action, persisted.stage)
    requires Effect(action, task, done, host, host', ok)
    ensures TaskOk(persisted, host', Issuing(action, facts))
  {
  }

  /** A step leaves a task that may be written, whether it succeeded or not. */
  lemma StepKeepsSafe(action: Action, task: Task, done: Task, host: Host, host': Host, ok: bool, facts: Facts)
    requires StepOf(action, task.stage)
    requires TaskOk(task, host, facts)
    requires Effect(action, task, done, host, host', ok)
    ensures TaskOk(done, host', Issuing(action, facts))
    ensures done.id == task.id && done.target == task.target && done.stage == task.stage
    ensures action.DeployTarget? || action.WaitHealthy? || action.Pull? ==> done == task
  {
  }

  lemma StepInStage(action: Action, stage: Stage)
    requires StepOf(action, stage)
    ensures InStage(action, stage) && stage != Cleaning && !stage.Terminal()
  {
  }

  /** A task brought to its end. */
  function Ended(task: Task, stage: Stage, rolledBack: bool, code: Code, now: int): Task {
    task.(stage := stage, rolledBack := rolledBack, code := code, finishedAt := Some(now))
  }

  function RollingTask(task: Task, code: Code): Task {
    task.(stage := RollingBack, code := code)
  }

  predicate EndedAs(persisted: Option<Task>, task: Task, stage: Stage, rolledBack: bool, code: Code) {
    && persisted.Some? && persisted.value.finishedAt.Some?
    && persisted.value.stage == stage && persisted.value.rolledBack == rolledBack && persisted.value.code == code
    && persisted.value.id == task.id && persisted.value.target == task.target
    && persisted.value.original == task.original && persisted.value.backupPath == task.backupPath
    && persisted.value.cleanup == task.cleanup
    && persisted.value.createdAt == task.createdAt && persisted.value.startedAt == task.startedAt
  }

  const ALL_OK := [true, true, true, true]

  /** A rollback deploys and checks both services, whatever the first ones report. */
  function RollbackLog(reports: seq<bool>): seq<Event>
    requires |reports| == 4
  {
    [Event(DeployRollback(Backend), reports[0]), Event(WaitRollbackHealthy(Backend), reports[1]),
     Event(DeployRollback(Web), reports[2]), Event(WaitRollbackHealthy(Web), reports[3])]
  }

  /** A task that may still be rolled back: either its aliases are in order or nothing was deployed. */
  predicate CanRollBack(task: Task, host: Host, facts: Facts) {
    if HasRollbackImages(task.original) then TaskOk(task.(stage := RollingBack), host, facts) else !facts.attempted
  }

  /** Between the first switch and the cleanup, a task may be written in any of those stages. */
  lemma LateStagesAgree(task: Task, stage: Stage, host: Host, facts: Facts)
    requires TaskOk(task, host, facts) && task.stage.Late()
    requires stage.Late() && stage != Cleaning
    ensures TaskOk(task.(stage := stage), host, facts)
  {
  }

  lemma LateCanRollBack(task: Task, host: Host, facts: Facts)
    requires TaskOk(task, host, facts) && task.stage.Late()
    ensures CanRollBack(task, host, facts) && HasRollbackImages(task.original)
  {
  }

  lemma RollingTaskOk(task: Task, code: Code, host: Host, facts: Facts)
    requires CanRollBack(task, host, facts) && HasRollbackImages(task.original)
    ensures TaskOk(RollingTask(task, code), host, facts)
  {
  }

  lemma ManualIsSafe(task: Task, host: Host, facts: Facts, code: Code, now: int)
    requires CanRollBack(task, host, facts)
    ensures TaskOk(Ended(task, ManualIntervention, false, code, now), host, facts)
  {
  }

  /** Before the first deployment a task may fail as it stands. */
  lemma EarlyFailureIsSafe(task: Task, host: Host, facts: Facts, code: Code, now: int)
    requires TaskOk(task, host, facts) && task.stage.Early()
    ensures TaskOk(Ended(task, Failed, false, code, now), host, facts)
    ensures TaskOk(Ended(task, ManualIntervention, false, code, now), host, facts)
  {
  }

  /** Deploying a rollback alias brings back what the service ran at task start. */
  lemma RollbackRestores(task: Task, done: Task, service: Service, host: Host, host': Host, ok: bool, facts: Facts)
    requires TaskOk(task, host, facts) && task.stage == RollingBack
    requires Effect(DeployRollback(service), task, done, host, host', ok)
    ensures TaskOk(task, host', facts) && done == task && host'.tags == host.tags
    ensures ok ==> host'.running.Of(service) == facts.start.Of(service)
    ensures forall other :: other != service ==> host'.running.Of(other) == host.running.Of(other)
  {
  }

  lemma RolledBackIsTruthful(task: Task, host: Host, facts: Facts, restored: bool, code: Code, now: int)
    requires TaskOk(task, host, facts) && task.stage == RollingBack
    requires restored ==> host.running == facts.start
    ensures TaskOk(Ended(task, if restored then Failed else ManualIntervention, restored, code, now), host, facts)
  {
  }

  /** The last task of a successful job. */
  function Finished(task: Task, now: Option<int>, removed: bool): Task {
    task.(stage := Succeeded, finishedAt := now,
          cleanup := if removed then Complete else Pending,
          code := if removed then NoCode else CleanupPending)
  }

  predicate FinishedAs(persisted: Option<Task>, task: Task, removed: bool) {
    && persisted.Some? && persisted.value.stage == Succeeded && persisted.value.finishedAt.Some?
    && persisted.value.cleanup == (if removed then Complete else Pending)
    && persisted.value.code == (if removed then NoCode else CleanupPending)
    && persisted.value.id == task.id && persisted.value.target == task.target
    && persisted.value.original == task.original && persisted.value.backupPath == task.backupPath
    && persisted.value.rolledBack == task.rolledBack
    && persisted.value.createdAt == task.createdAt && persisted.value.startedAt == task.startedAt
  }

  lemma SucceededIsTruthful(task: Task, now: Option<int>, removed: bool, host: Host, facts: Facts)
    requires TaskOk(task, host, facts) && task.stage == Cleaning && RunsPair(host.running, task.target)
    ensures TaskOk(Finished(task, now, removed), host, facts)
  {
  }

  /** The log of the stabilizing rounds. */
  function Rounds(n: nat): seq<Event> {
    if n == 0 then []
    else Rounds(n - 1) + [Event(WaitHealthy(Backend), true)] + [Event(WaitHealthy(Web), true)]
  }

  /** Removing an old image stops no service and leaves the task as true as it was. */
  lemma RemovalIsHarmless(task: Task, done: Task, service: Service, host: Host, host': Host, ok: bool, facts: Facts)
    requires TaskOk(task, host, facts) && task.stage == Cleaning
    requires Effect(RemoveOld(service), task, done, host, host', ok)
    ensures TaskOk(task, host', facts) && host'.running == host.running
  {
  }

  /** What a restarted updater may do: never alias, back up, pull or deploy the target. */
  predicate OfRecovery(action: Action) {
    match action
    case CreateAlias(_) => false
    case Backup => false
    case Pull(_) => false
    case DeployTarget(_) => false
    case _ => true
  }

  /** The log grew by actions of recovery only. */
  predicate Recovering(before: seq<Event>, after: seq<Event>) {
    && before <= after
    && forall i :: |before| <= i < |after| ==> OfRecovery(after[i].action)
  }

  lemma NothingIssued(log: seq<Event>)
    ensures Recovering(log, log)
  {
  }

  lemma RecoveringStep(before: seq<Event>, middle: seq<Event>, after: seq<Event>, action: Action)
    requires Recovering(before, middle) && OfRecovery(action)
    requires after == middle || after == middle + [Event(action, true)] || after == middle + [Event(action, false)]
    ensures Recovering(before, after)
  {
  }

  lemma RecoveringTwice(before: seq<Event>, middle: seq<Event>, after: seq<Event>)
    requires Recovering(before, middle) && Recovering(middle, after)
    ensures Recovering(before, after)
  {
    forall i | |before| <= i < |after| ensures OfRecovery(after[i].action) {
      if i < |middle| {
        assert after[i] == middle[i];
      }
    }
  }

  /** The steps of a job before its stabilizing rounds, and the stages they run in. */
  const PLAN: seq<Event> := [
    Event(Inspect(Backend), true),
    Event(Inspect(Web), true),
    Event(CreateAlias(Backend), true),
    Event(CreateAlias(Web), true),
    Event(Backup, true),
    Event(Pull(Backend), true),
    Event(Pull(Web), true),
    Event(DeployTarget(Backend), true),
    Event(WaitHealthy(Backend), true),
    Event(DeployTarget(Web), true),
    Event(WaitHealthy(Web), true)]

  const STAGES: seq<Stage> := [
    Checking, Checking, BackingUp, BackingUp, BackingUp, Pulling, Pulling,
    SwitchingBackend, CheckingBackend, SwitchingWeb, CheckingWeb]

  /** The first n steps of the plan succeeded. */
  predicate Reached(before: seq<Event>, log: seq<Event>, n: nat) {
    n <= |PLAN| && log == before + PLAN[..n]
  }

  /** They did, and the next one failed. */
  function FailureLog(before: seq<Event>, n: nat): seq<Event>
    requires n < |PLAN|
  {
    before + PLAN[..n] + [Event(PLAN[n].action, false)]
  }

  lemma Begin(before: seq<Event>)
    ensures Reached(before, before, 0)
  {
  }

  lemma Advance(before: seq<Event>, middle: seq<Event>, log: seq<Event>, n: nat)
    requires Reached(before, middle, n) && n < |PLAN|
    ensures log == middle + [PLAN[n]] ==> Reached(before, log, n + 1)
    ensures log == middle + [Event(PLAN[n].action, false)] ==> log == FailureLog(before, n)
  {
    assert PLAN[..n] + [PLAN[n]] == PLAN[..n + 1];
  }

  /** How a task ends when the step of the given stage fails: before the first switch it fails as
      it stands; later it is rolled back, and needs help if anything in the rollback went wrong. */
  predicate EndedBy(persisted: Option<Task>, task: Task, stage: Stage, reports: seq<bool>) {
    && persisted.Some? && persisted.value.id == task.id && persisted.value.target == task.target
    && if stage.Early() || reports == ALL_OK then
         && persisted.value.stage == Failed && persisted.value.rolledBack == !stage.Early()
         && persisted.value.code == CodeOf(stage)
       else
         && persisted.value.stage == ManualIntervention && !persisted.value.rolledBack
         && persisted.value.code == RollbackFailed
  }

  lemma EndsTheSame(persisted: Option<Task>, task: Task, other: Task, stage: Stage, reports: seq<bool>)
    requires task.id == other.id && task.target == other.target
    ensures EndedBy(persisted, task, stage, reports) <==> EndedBy(persisted, other, stage, reports)
  {
  }

  /** The log of a job whose step n failed. */
  predicate LogEndsAt(before: seq<Event>, log: seq<Event>, n: nat, reports: seq<bool>) {
    && n < |PLAN|
    && if STAGES[n].Early() then log == FailureLog(before, n)
       else |reports| == 4 && log == FailureLog(before, n) + RollbackLog(reports)
  }

  /** What a job knows about one service once its rollback alias exists. */
  predicate Prepared(task: Task, host: Host, facts: Facts, service: Service) {
    && Records(task, facts.start, service)
    && AliasIntact(task, facts.start, host.tags, service, true)
  }

  /** The image the job recorded for a service is the one it runs. */
  predicate Inspected(task: Task, host: Host, service: Service) {
    && host.running.Of(service) == Some(task.original.Of(service))
    && task.original.Of(service).digest != ""
  }

  lemma InspectRecords(task: Task, stage: Stage, done: Task, service: Service, host: Host, host': Host)
    requires Effect(Inspect(service), task.(stage := stage), done, host, host', true)
    ensures Inspected(done, host', service) && host' == host
    ensures forall other :: other != service && Inspected(task, host, other) ==> Inspected(done, host', other)
  {
  }

  lemma AliasPrepares(task: Task, stage: Stage, done: Task, service: Service, host: Host, host': Host, facts: Facts)
    requires TaskOk(task, host, facts) && task.stage.Early()
    requires Inspected(task, host, service)
    requires Effect(CreateAlias(service), task.(stage := stage), done, host, host', true)
    ensures Prepared(done, host', facts, service) && host'.running == host.running
    ensures forall other :: other != service && Inspected(task, host, other) ==> Inspected(done, host', other)
    ensures forall other :: other != service && Prepared(task, host, facts, other) ==>
      Prepared(done, host', facts, other)
  {
  }

  /** Backing up and pulling leave what was prepared. */
  lemma PreparationStays(action: Action, task: Task, stage: Stage, done: Task, host: Host, host': Host, facts: Facts)
    requires action == Backup || action.Pull?
    requires Effect(action, task.(stage := stage), done, host, host', true)
    ensures forall service :: Prepared(task, host, facts, service) ==> Prepared(done, host', facts, service)
  {
  }

  lemma PreparedIsSafe(task: Task, host: Host, facts: Facts)
    requires TaskOk(task, host, facts) && task.stage.Early()
    requires Prepared(task, host, facts, Backend) && Prepared(task, host, facts, Web)
    ensures TaskOk(task.(stage := SwitchingBackend), host, facts)
  {
  }

  lemma EarlyStagesAgree(task: Task, stage: Stage, host: Host, facts: Facts)
    requires TaskOk(task, host, facts) && task.stage.Early() && stage.Early()
    ensures TaskOk(task.(stage := stage), host, facts)
  {
  }

  lemma DeployRuns(task: Task, stage: Stage, done: Task, service: Service, host: Host, host': Host)
    requires Effect(DeployTarget(service), task.(stage := stage), done, host, host', true)
    ensures RunsDigest(host'.running.Of(service), task.target.Of(service))
    ensures forall other :: other != service ==> host'.running.Of(other) == host.running.Of(other)
  {
  }

  lemma WaitingChangesNothing(task: Task, stage: Stage, done: Task, service: Service, host: Host, host': Host)
    requires Effect(WaitHealthy(service), task.(stage := stage), done, host, host', true)
    ensures host' == host
  {
  }

  /** Where a job with a fault stopped: at a step of the plan, or while stabilizing. */
  predicate EndsIn(before: seq<Event>, trace: Trace, n: nat, reports: seq<bool>) {
    || trace.fault == Some(Stabilizing)
    || (LogEndsAt(before, trace.log, n, reports) && trace.fault == Some(STAGES[n]))
  }

  predicate CompletedFrom(persisted: Option<Task>, task: Task, removed: bool) {
    && persisted.Some? && persisted.value.id == task.id && persisted.value.target == task.target
    && FinishedAs(persisted, persisted.value, removed)
  }

  lemma PlanIsDone(before: seq<Event>, log: seq<Event>)
    requires Reached(before, log, 11)
    ensures log == before + PLAN
  {
    assert PLAN[..11] == PLAN;
  }

  lemma StabilizedMayClean(task: Task, host: Host, facts: Facts)
    requires TaskOk(task, host, facts) && task.stage == Stabilizing
    ensures TaskOk(task.(stage := Cleaning), host, Writing(Cleaning, facts))
  {
  }

  predicate PairMatches(actual: Pair, expected: Pair) {
    actual.backend.digest == expected.backend.digest && actual.web.digest == expected.web.digest
  }

  // ---- How a restarted updater ends a task ------------------------------------------------

  /** How it asked what a service runs: by the plain inspection, and if that fails and the task has recorded a
      rollback alias, by the one that knows the alias. */
  predicate Asked(task: Task, service: Service, events: seq<Event>) {
    || events == [Event(Inspect(service), true)]
    || (events == [Event(Inspect(service), false)] && task.original.Of(service).alias == NoAlias)
    || (task.original.Of(service).alias != NoAlias
        && (events == [Event(Inspect(service), false), Event(InspectRollback(service), true)]
            || events == [Event(Inspect(service), false), Event(InspectRollback(service), false)]))
  }

  /** The last inspection told. */
  predicate Answered(events: seq<Event>) {
    events != [] && events[|events| - 1].ok
  }

  /** A rollback of a restarted updater. */
  predicate RolledBackAs(persisted: Option<Task>, task: Task, rest: seq<Event>, reports: seq<bool>) {
    && |reports| == 4 && rest == RollbackLog(reports)
    && if reports == ALL_OK then EndedAs(persisted, task, Failed, true, UpdaterRestarted)
       else EndedAs(persisted, task, ManualIntervention, false, RollbackFailed)
  }

  /** A task found in stage cleaning with the target running: its cleanup is finished if both services are healthy,
      and the first one that is not has everything rolled back. */
  predicate Rechecked(persisted: Option<Task>, task: Task, rest: seq<Event>, reports: seq<bool>) {
    || (|reports| == 2 && FinishedAs(persisted, task, reports[0] && reports[1])
        && rest == [Event(WaitHealthy(Backend), true), Event(WaitHealthy(Web), true),
                    Event(RemoveOld(Backend), reports[0]), Event(RemoveOld(Web), reports[1])])
    || (|rest| > 1 && rest[0] == Event(WaitHealthy(Backend), false)
        && RolledBackAs(persisted, task, rest[1..], reports))
    || (|rest| > 2 && rest[0] == Event(WaitHealthy(Backend), true) && rest[1] == Event(WaitHealthy(Web), false)
        && RolledBackAs(persisted, task, rest[2..], reports))
  }

  lemma CleanedUp(persisted: Option<Task>, task: Task, healthy: seq<Event>, backend: bool, web: bool)
    requires healthy == [Event(WaitHealthy(Backend), true), Event(WaitHealthy(Web), true)]
    requires FinishedAs(persisted, task, backend && web)
    ensures var rest := healthy + [Event(RemoveOld(Backend), backend)] + [Event(RemoveOld(Web), web)];
            Rechecked(persisted, task, rest, [backend, web])
  {
    hide FinishedAs;
  }

  lemma RolledBackAfter(persisted: Option<Task>, task: Task, waited: seq<Event>, reports: seq<bool>)
    requires |reports| == 4 && RolledBackAs(persisted, task, RollbackLog(reports), reports)
    requires || waited == [Event(WaitHealthy(Backend), false)]
             || waited == [Event(WaitHealthy(Backend), true), Event(WaitHealthy(Web), false)]
    ensures Rechecked(persisted, task, waited + RollbackLog(reports), reports)
  {
    hide RolledBackAs, FinishedAs;
    var rest := waited + RollbackLog(reports);
    assert rest[|waited|..] == RollbackLog(reports) && rest[..|waited|] == waited;
  }

  /** What is done and what becomes of the task once both services told what they run. */
  predicate Resumed(persisted: Option<Task>, task: Task, running: Running, rest: seq<Event>, reports: seq<bool>) {
    if task.stage.Early() then
      && rest == []
      && (if RunsPair(running, task.original) then EndedAs(persisted, task, Failed, false, UpdaterRestarted)
          else EndedAs(persisted, task, ManualIntervention, false, StateInvalid))
    else if task.stage == Cleaning && RunsPair(running, task.target) then
      Rechecked(persisted, task, rest, reports)
    else
      RolledBackAs(persisted, task, rest, reports)
  }

  /** How a restarted updater ends the unfinished task it finds: it asks for help at once if a service does not tell,
      and else goes by the stage on disk and by what runs. */
  predicate Recovered(persisted: Option<Task>, task: Task, running: Running,
                      backend: seq<Event>, web: seq<Event>, rest: seq<Event>, reports: seq<bool>) {
    && Asked(task, Backend, backend)
    && (!Answered(backend) ==> web == [])
    && (Answered(backend) ==> Asked(task, Web, web))
    && if Answered(backend) && Answered(web) then Resumed(persisted, task, running, rest, reports)
       else rest == [] && EndedAs(persisted, task, ManualIntervention, false, StateInvalid)
  }
}
