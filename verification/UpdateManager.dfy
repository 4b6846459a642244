/** The crash-safe upgrade job: it writes its stage, acts on the containers and
    writes again; a restarted updater resumes from what was written.

    Everything the job cannot control is left open. A save fails before or
    after its rename; a container action fails with or without effect, and a
    failed deployment leaves its service in any state whatever; other requests
    run between any two steps of the job; and the process may die after every
    step. A dead process does nothing more, so the state in which a method
    returns after a death is the state at that crash point, and an invariant
    that the methods keep holds at every crash point. */
module UpdateManager {
  import opened Prelude
  import opened UpdateTypes
  import opened UpdateHost
  import opened FileStore

  class Manager {
    const store: FileStore<Persistent>
    const ttl: int
    const backendRepo: string
    const webRepo: string
    var host: Host
    var alive: bool        // the updater process runs
    var cancelled: bool    // its root context is done
    ghost var facts: Facts
    ghost var trace: Trace

    constructor (ttl: int, backendRepo: string, webRepo: string, host: Host)
      ensures fresh(store) && store.file == None && Inv()
      ensures this.ttl == ttl && this.backendRepo == backendRepo && this.webRepo == webRepo && this.host == host
    {
      store := new FileStore();
      this.ttl, this.backendRepo, this.webRepo, this.host := ttl, backendRepo, webRepo, host;
      alive, cancelled := false, false;
      facts, trace := Facts(host.running, false, false), Trace([], true, None);
    }

    function Disk(): Persistent
      reads store
    {
      if store.file == None then EMPTY else store.file.value
    }

    ghost predicate Inv()
      reads this`host, this`facts, store
    {
      && VersionsOk(Disk())
      && (Disk().task.Some? ==> TaskOk(Disk().task.value, host, facts))
    }

    /** The persisted task is the unfinished task `id`. */
    predicate Owned(id: nat)
      reads store
    {
      Disk().task.Some? && Disk().task.value.id == id && !Disk().task.value.stage.Terminal()
    }

    /** Writing this task now would keep Inv. */
    ghost predicate Safe(task: Task)
      reads this`host, this`facts
    {
      TaskOk(task, host, Writing(task.stage, facts)) && SameVersion(task.target)
    }

    /** The job stopped at step n of the plan, and its task says so. */
    ghost predicate StoppedAt(task: Task, before: seq<Event>, n: nat, reports: seq<bool>)
      reads this`trace, store
    {
      && n < |PLAN| && EndedBy(Disk().task, task, STAGES[n], reports)
      && LogEndsAt(before, trace.log, n, reports) && trace.fault == Some(STAGES[n])
    }

    lemma SafeLater(task: Task, stage: Stage)
      requires Safe(task) && task.stage.Late() && task.stage != Cleaning && stage.Late() && stage != Cleaning
      ensures Safe(task.(stage := stage))
    {
      hide TaskOk;
      LateStagesAgree(task, stage, host, facts);
    }

    /** It depends on the identity and the target of the task alone. */
    lemma StoppedTheSame(task: Task, other: Task, before: seq<Event>, n: nat, reports: seq<bool>)
      requires task.id == other.id && task.target == other.target
      ensures StoppedAt(task, before, n, reports) <==> StoppedAt(other, before, n, reports)
    {
      if n < |PLAN| {
        EndsTheSame(Disk().task, task, other, STAGES[n], reports);
      }
    }

    // ---- Environment ------------------------------------------------------

    method MayDie()
      modifies this
      ensures host == old(host) && facts == old(facts) && cancelled == old(cancelled) && (alive ==> old(alive))
      ensures trace == old(trace).(quiet := old(trace).quiet && (old(alive) ==> alive))
    {
      var dies: bool := *;
      if alive && dies {
        alive := false;
        trace := trace.(quiet := false);
      }
    }

    /** manager.rootContext.Err(): once cancelled, a context stays cancelled. */
    method ContextDone() returns (done: bool)
      modifies this
      ensures host == old(host) && facts == old(facts) && alive == old(alive)
      ensures done == cancelled && (old(cancelled) ==> cancelled)
      ensures trace == old(trace).(quiet := old(trace).quiet && !done)
    {
      var now: bool := *;
      cancelled := cancelled || now;
      trace := trace.(quiet := trace.quiet && !cancelled);
      done := cancelled;
    }

    method Load() returns (state: Option<Persistent>)
      modifies this
      ensures host == old(host) && facts == old(facts) && alive == old(alive) && cancelled == old(cancelled)
      ensures state == None || state == Some(Disk())
      ensures trace == old(trace).(quiet := old(trace).quiet && state.Some?)
    {
      var unreadable: bool := *;
      state := store.Load(EMPTY, unreadable);
      trace := trace.(quiet := trace.quiet && state.Some?);
    }

    /** One save of the whole state; it may write although it reports an error. */
    method Save(next: Persistent) returns (ok: bool)
      modifies this, store
      ensures host == old(host) && facts == old(facts) && cancelled == old(cancelled) && (alive ==> old(alive))
      ensures Disk() == old(Disk()) || (old(alive) && Disk() == next)
      ensures ok ==> alive && Disk() == next
      ensures trace == old(trace).(quiet := old(trace).quiet && (old(alive) ==> ok))
    {
      ok := false;
      if alive {
        var failing: SaveFault := *;
        var leaked: bool := *;
        ok := store.Save(next, failing, leaked);
        trace := trace.(quiet := trace.quiet && ok);
        MayDie();
        ok := ok && alive;
      }
    }

    // ---- Requests that arrive while a job runs ------------------------------

    /** Manager.Check: the persisted check is replaced, the persisted task is not. */
    method CheckNow(backend: Option<Image>, web: Option<Image>, stableBackend: Option<Image>, stableWeb: Option<Image>,
                    now: int)
      returns (r: Option<StatusView>)
      requires Inv()
      modifies this, store
      ensures Inv() && (alive ==> old(alive))
      ensures host == old(host) && facts == old(facts) && cancelled == old(cancelled)
      ensures trace == old(trace).(quiet := trace.quiet)
      ensures Disk().task == old(Disk().task)
      ensures r.Some? ==> Disk().lastCheck.Some? && r.value == View(Disk()) &&
                          Check(backend, web, stableBackend, stableWeb, backendRepo, webRepo, now) ==
                            Ok(Disk().lastCheck.value)
      ensures Check(backend, web, stableBackend, stableWeb, backendRepo, webRepo, now).Err? ==>
                r.None? && Disk() == old(Disk())
      ensures trace.quiet && old(alive) && r.None? ==>
                Check(backend, web, stableBackend, stableWeb, backendRepo, webRepo, now).Err?
    {
      hide TaskOk;
      r := None;
      var state := Load();
      if state.None? {
        return;
      }
      var result := Check(backend, web, stableBackend, stableWeb, backendRepo, webRepo, now);
      if result.Err? {
        return;
      }
      var next := state.value.(lastCheck := Some(result.value));
      var ok := Save(next);
      if ok {
        r := Some(View(next));
      }
    }

    /** Manager.Start up to the launch of the job: Ok carries the task to run. */
    method Start(version: Version, now: int, id: nat) returns (r: Result<Task, Option<StartError>>)
      requires Inv()
      modifies this, store
      ensures Inv() && (alive ==> old(alive)) && host == old(host) && cancelled == old(cancelled)
      ensures old(ActiveOrManual(Disk())) ==> r.Err? && Disk() == old(Disk()) && facts == old(facts)
      ensures version == Malformed ==> r == Err(Some(BadVersion))
      ensures r.Err? && r.error.Some? ==>
                r.error == StartDecision(old(Disk()), version, now, ttl) && Disk() == old(Disk())
      ensures r.Ok? ==>
                && alive
                && StartDecision(old(Disk()), version, now, ttl) == None
                && Disk() == old(Disk()).(task := Some(r.value))
                && r.value.id == id && r.value.target == old(Disk()).lastCheck.value.target
                && r.value.original == old(Disk()).lastCheck.value.current
                && r.value == Task(id, r.value.original, r.value.target, Checking, "", now, now, None, false, NotRun,
                                   NoCode)
                && r.value.target.backend.version == r.value.target.web.version == version
                && Compare(version, old(Disk()).lastCheck.value.current.backend.version) > 0
                && facts == Facts(host.running, false, false)
      ensures r.Err? ==> Disk() == old(Disk()) ||
                         (Disk().task.Some? && Disk().task.value.id == id && Disk().task.value.stage == Checking)
      ensures Disk().lastCheck == old(Disk()).lastCheck
      ensures trace.quiet && old(alive) && r.Err? ==>
                r.error.Some? && r.error == StartDecision(old(Disk()), version, now, ttl)
      ensures trace == old(trace).(quiet := trace.quiet)
    {
      hide Armed, AliasIntact;
      if version == Malformed {
        return Err(Some(BadVersion));
      }
      var state := Load();
      if state.None? {
        return Err(None);
      }
      var refusal := StartDecision(state.value, version, now, ttl);
      if refusal.Some? {
        return Err(refusal);
      }
      var check := state.value.lastCheck.value;
      assert Compare(check.target.backend.version, check.current.backend.version) > 0;
      var task := Task(id, check.current, check.target, Checking, "", now, now, None, false, NotRun, NoCode);
      ghost var before := Disk();
      var ok := Save(state.value.(task := Some(task)));
      if ok || Disk() != before {
        facts := Facts(host.running, false, false);
      }
      r := if ok then Ok(task) else Err(None);
    }

    /** The end of Manager.Start, after the job is launched: the state is read again for the reply. It may be
        unreadable, or hold another task already; the job runs all the same. */
    method Answer(id: nat) returns (r: Option<Task>)
      requires Inv()
      modifies this
      ensures host == old(host) && facts == old(facts) && alive == old(alive) && cancelled == old(cancelled)
      ensures r.Some? ==> Disk().task == r && r.value.id == id
      ensures r.None? ==> trace.quiet ==> Disk().task.None? || Disk().task.value.id != id
      ensures trace == old(trace).(quiet := trace.quiet)
    {
      var state := Load();
      if state.None? || state.value.task.None? || state.value.task.value.id != id {
        return None;
      }
      r := state.value.task;
    }

    /** Any number of checks and start requests, handled between two steps of the job, and the reply to the
        request that started it; `started` says for each start request whether it started another job. None does. */
    method Requests(ghost id: nat) returns (ghost started: seq<bool>)
      requires Inv() && Owned(id)
      modifies this, store
      ensures Inv() && (alive ==> old(alive))
      ensures forall i :: 0 <= i < |started| ==> !started[i]
      ensures Disk().task == old(Disk().task)
      ensures host == old(host) && facts == old(facts) && cancelled == old(cancelled)
      ensures trace == old(trace).(quiet := old(trace).quiet && (old(alive) ==> alive))
    {
      ghost var own := trace;
      ghost var was := alive;
      started := [];
      var n: nat := *;
      while n > 0
        invariant Inv() && Owned(id) && (alive ==> old(alive))
        invariant forall i :: 0 <= i < |started| ==> !started[i]
        invariant Disk().task == old(Disk().task)
        invariant host == old(host) && facts == old(facts) && cancelled == old(cancelled)
        invariant trace == own.(quiet := trace.quiet)
      {
        var kind: nat := *;
        if kind == 0 {
          var version: Version, now: int, newId: nat := *, *, *;
          var r := Start(version, now, newId);
          started := started + [r.Ok?];
        } else if kind == 1 {
          var b: Option<Image>, w: Option<Image>, sb: Option<Image>, sw: Option<Image>, now: int := *, *, *, *, *;
          var r := CheckNow(b, w, sb, sw, now);
        } else {
          var asked: nat := *;
          var r := Answer(asked);
        }
        n := n - 1;
      }
      // what fails in another request is not a fault of the job; a death is
      trace := own.(quiet := own.quiet && (was ==> alive));
    }

    // ---- The job ------------------------------------------------------------

    /** A job may write while the file holds its own unfinished task; a foreign task refuses it. */
    method SaveTask(task: Task) returns (ok: bool)
      requires Inv()
      requires alive && Disk().task.Some? && Disk().task.value.id == task.id ==> Owned(task.id) && Safe(task)
      modifies this, store
      ensures Inv() && (alive ==> old(alive))
      ensures host == old(host) && cancelled == old(cancelled)
      ensures facts == if Disk().task == Some(task) then Writing(task.stage, old(facts)) else old(facts)
      ensures trace == old(trace).(quiet := old(trace).quiet && (old(alive) ==> ok))
      ensures Disk().task == old(Disk().task) || Disk().task == Some(task)
      ensures ok ==> alive && Disk().task == Some(task)
      ensures !old(alive) || !old(Owned(task.id)) ==> !ok && Disk() == old(Disk())
    {
      hide TaskOk;
      ok := false;
      CleaningIsRecorded(Disk().task, host, facts);
      if !alive {
        return;
      }
      if Owned(task.id) {
        ghost var started := Requests(task.id);
      }
      ok := WriteTask(task);
      if Disk().task == Some(task) {
        facts := Writing(task.stage, facts);
      }
    }

    /** manager.saveTask, under the mutex: nothing but the task is written. */
    method WriteTask(task: Task) returns (ok: bool)
      modifies this, store
      ensures host == old(host) && facts == old(facts) && cancelled == old(cancelled) && (alive ==> old(alive))
      ensures Disk() == old(Disk()) || (old(alive) && Disk() == old(Disk()).(task := Some(task)))
      ensures Disk() != old(Disk()) ==> old(Disk()).task.Some? && old(Disk()).task.value.id == task.id
      ensures ok ==>
                && alive && old(Disk()).task.Some? && old(Disk()).task.value.id == task.id
                && Disk() == old(Disk()).(task := Some(task))
      ensures trace == old(trace).(quiet := old(trace).quiet && (old(alive) ==> ok))
    {
      ok := false;
      if !alive {
        return;
      }
      var state := Load();
      if state.None? || state.value.task.None? || state.value.task.value.id != task.id {
        trace := trace.(quiet := false);
        return;
      }
      ok := Save(state.value.(task := Some(task)));
    }

    /** The last save of a successful job also moves the check to the new version. */
    method FinishTask(task: Task) returns (ok: bool)
      requires Inv() && task.stage == Succeeded
      requires alive ==> Owned(task.id) && Safe(task)
      modifies this, store
      ensures Inv() && (alive ==> old(alive))
      ensures host == old(host) && facts == old(facts) && cancelled == old(cancelled)
      ensures trace == old(trace).(quiet := old(trace).quiet && (old(alive) ==> ok))
      ensures Disk().task == old(Disk().task) || Disk().task == Some(task)
      ensures ok ==>
                && alive && Disk().task == Some(task) && Disk().lastCheck.Some?
                && Disk().lastCheck.value.current == task.target
    {
      hide TaskOk;
      ok := false;
      if !alive {
        return;
      }
      ghost var started := Requests(task.id);
      ok := WriteFinished(task);
    }

    /** manager.finishTask, under the mutex: the check keeps its target and its time. */
    method WriteFinished(task: Task) returns (ok: bool)
      requires VersionsOk(Disk())
      modifies this, store
      ensures host == old(host) && facts == old(facts) && cancelled == old(cancelled) && (alive ==> old(alive))
      ensures Disk() == old(Disk()) || (old(alive) && Moved(old(Disk()), task, Disk()))
      ensures ok ==> alive && Moved(old(Disk()), task, Disk())
      ensures trace.quiet ==> old(trace).quiet
      ensures trace == old(trace).(quiet := old(trace).quiet && (old(alive) ==> ok))
    {
      ok := false;
      if !alive {
        return;
      }
      var state := Load();
      if state.None? || state.value.task.None? || state.value.task.value.id != task.id || state.value.lastCheck.None? {
        trace := trace.(quiet := false);
        return;
      }
      var check := state.value.lastCheck.value.(current := task.target);
      check := check.(available := Compare(check.target.backend.version, check.current.backend.version) > 0);
      ok := Save(Persistent(Some(check), Some(task)));
    }

    /** The finished task, and a check that knows its target runs. */
    ghost predicate Moved(before: Persistent, task: Task, after: Persistent) {
      && before.task.Some? && before.task.value.id == task.id && after.task == Some(task)
      && before.lastCheck.Some? && after.lastCheck.Some?
      && after.lastCheck.value.current == task.target
      && after.lastCheck.value.target == before.lastCheck.value.target
      && after.lastCheck.value.checkedAt == before.lastCheck.value.checkedAt
      && (after.lastCheck.value.available <==>
            Compare(before.lastCheck.value.target.backend.version, task.target.backend.version) > 0)
    }

    /** One container action of a living process, with its report in the log.
        A process found dead afterwards issued the action all the same. */
    method Execute(action: Action, task: Task) returns (done: Task, ok: bool)
      requires Inv() && (alive ==> Disk().task == Some(task) && Owned(task.id) && InStage(action, task.stage))
      modifies this, store
      ensures Inv() && (alive ==> old(alive)) && cancelled == old(cancelled)
      ensures Disk().task == old(Disk().task)
      ensures facts == if old(alive) then Issuing(action, old(facts)) else old(facts)
      ensures old(alive) ==> Effect(action, task, done, old(host), host, ok)
      ensures !old(alive) ==> !ok && done == task && host == old(host)
      ensures trace == old(trace).(log := old(trace).log + (if old(alive) then [Event(action, ok)] else []),
                                   quiet := old(trace).quiet && (old(alive) ==> alive))
    {
      hide TaskOk, Effect, InStage, VersionsOk;
      done, ok := task, false;
      if !alive {
        return;
      }
      ghost var started := Requests(task.id);
      ghost var before := host;
      done, ok := Act(action, task);
      ActionKeepsTask(action, task, done, Disk().task.value, before, host, ok, facts);
      trace := trace.(log := trace.log + [Event(action, ok)]);
      facts := Issuing(action, facts);
      MayDie();
    }

    /** The containers answer as they like within Effect. */
    method Act(action: Action, task: Task) returns (done: Task, ok: bool)
      modifies this`host
      ensures Effect(action, task, done, old(host), host, ok)
      ensures done.id == task.id && done.target == task.target && done.stage == task.stage
    {
      done, ok := task, *;
      var left: Option<Image> := *;
      var applied: bool := *;
      match action
      case Inspect(s) =>
        ok := ok && host.running.Of(s).Some? && host.running.Of(s).value.digest != "";
        if ok {
          done := task.(original := task.original.With(s, host.running.Of(s).value));
        }
      case InspectRollback(s) =>
        ok := ok && RunsDigest(host.running.Of(s), task.original.Of(s))
          && host.running.Of(s).value.id == task.original.Of(s).id;
      case CreateAlias(s) =>
        var tag := RollbackTag(s, task.id);
        if ok || applied {
          host := host.(tags := host.tags[tag := task.original.Of(s)]);
        }
        done := task.(original := task.original.With(s, if ok then task.original.Of(s).(alias := tag) else BLANK));
      case Backup =>
        var path: string := *;
        done := task.(backupPath := if ok then path else "");
      case Pull(_) =>
      case WaitHealthy(s) =>
        ok := ok && host.running.Of(s).Some?;
      case DeployTarget(s) =>
        ok := ok && RunsDigest(left, task.target.Of(s));
        host := host.(running := host.running.With(s, left));
      case DeployRollback(s) =>
        var tag := RollbackTag(s, task.id);
        ok := ok && tag in host.tags;
        host := host.(running := host.running.With(s, if ok then Some(host.tags[tag]) else left));
      case WaitRollbackHealthy(s) =>
        ok := ok && host.running.Of(s).Some? && host.running.Of(s).value.id == task.original.Of(s).id;
      case RemoveOld(s) =>
        if ok || applied {
          host := host.(tags := host.tags - {RollbackTag(s, task.id)});
        }
    }

    /** manager.perform: write the stage, act, write again. */
    method Perform(task: Task, stage: Stage, action: Action) returns (done: Task, ok: bool)
      requires Inv() && StepOf(action, stage)
      requires alive ==> Owned(task.id) && Safe(task.(stage := stage))
      modifies this, store
      ensures Inv() && (alive ==> old(alive)) && cancelled == old(cancelled)
      ensures facts == old(facts) || facts == Issuing(action, old(facts))
      ensures done.id == task.id && done.target == task.target && done.stage == stage
      ensures action.DeployTarget? || action.WaitHealthy? || action.Pull? ==> done == task.(stage := stage)
      ensures alive ==> Owned(task.id) && Safe(done)
      ensures ok ==> alive && Effect(action, task.(stage := stage), done, old(host), host, true)
      ensures ok ==> Disk().task == Some(done) && trace.log == old(trace).log + [Event(action, true)]
      ensures !ok && trace.quiet && old(alive) ==> trace.log == old(trace).log + [Event(action, false)]
      ensures trace.fault == if ok then old(trace).fault else Some(stage)
      ensures trace.quiet ==> old(trace).quiet && (old(alive) ==> alive)
    {
      hide Inv, TaskOk, Effect, InStage, StepOf, VersionsOk;
      done, ok := task.(stage := stage), false;
      StepInStage(action, stage);
      var saved := SaveTask(done);
      if saved {
        ghost var before := host;
        done, ok := Execute(action, done);
        StepKeepsSafe(action, task.(stage := stage), done, before, host, ok, old(facts));
        if ok {
          ok := SaveTask(done);
        }
      }
      if !ok {
        trace := trace.(fault := Some(stage));
      }
    }

    /** One service of a rollback: deploy its alias, wait until it is healthy. */
    method RollBackService(task: Task, service: Service) returns (deployed: bool, healthy: bool)
      requires Inv() && task.stage == RollingBack
      requires alive ==> Disk().task == Some(task)
      modifies this, store
      ensures Inv() && (alive ==> old(alive)) && cancelled == old(cancelled) && facts == old(facts)
      ensures Disk().task == old(Disk().task)
      ensures deployed ==> old(alive) && host.running.Of(service) == facts.start.Of(service)
      ensures forall other :: other != service ==> host.running.Of(other) == old(host).running.Of(other)
      ensures trace.fault == old(trace).fault && (trace.quiet ==> old(trace).quiet && (old(alive) ==> alive))
      ensures alive ==>
                trace.log == old(trace).log +
                  [Event(DeployRollback(service), deployed), Event(WaitRollbackHealthy(service), healthy)]
      ensures Recovering(old(trace).log, trace.log)
    {
      hide TaskOk, VersionsOk, Recovering;
      ghost var before := host;
      var done;
      done, deployed := Execute(DeployRollback(service), task);
      if old(alive) {
        RollbackRestores(task, done, service, before, host, deployed, facts);
      }
      ghost var log := trace.log;
      NothingIssued(old(trace).log);
      RecoveringStep(old(trace).log, old(trace).log, log, DeployRollback(service));
      done, healthy := Execute(WaitRollbackHealthy(service), task);
      RecoveringStep(old(trace).log, log, trace.log, WaitRollbackHealthy(service));
    }

    /** The two services of a rollback, backend first; the first error does not stop it. */
    method RollBackServices(task: Task) returns (restored: bool, ghost reports: seq<bool>)
      requires Inv() && task.stage == RollingBack
      requires alive ==> Disk().task == Some(task)
      modifies this, store
      ensures Inv() && (alive ==> old(alive)) && cancelled == old(cancelled) && facts == old(facts)
      ensures Disk().task == old(Disk().task)
      ensures restored ==> host.running == facts.start
      ensures |reports| == 4 && (restored <==> reports == ALL_OK)
      ensures trace.fault == old(trace).fault && (trace.quiet ==> old(trace).quiet && (old(alive) ==> alive))
      ensures alive ==> trace.log == old(trace).log + RollbackLog(reports)
      ensures Recovering(old(trace).log, trace.log)
    {
      hide TaskOk, VersionsOk, Recovering;
      var b, bHealthy := RollBackService(task, Backend);
      ghost var log := trace.log;
      var w, wHealthy := RollBackService(task, Web);
      RecoveringTwice(old(trace).log, log, trace.log);
      reports := [b, bHealthy, w, wHealthy];
      restored := b && bHealthy && w && wHealthy;
      assert reports[0] == b && reports[1] == bHealthy && reports[2] == w && reports[3] == wHealthy;
    }

    /** manager.rollback */
    method Rollback(task: Task, code: Code) returns (ok: bool, ghost reports: seq<bool>)
      requires Inv()
      requires alive ==> Owned(task.id) && SameVersion(task.target) && CanRollBack(task, host, facts)
      modifies this, store
      ensures Inv() && (alive ==> old(alive)) && facts == old(facts)
      ensures trace.fault == old(trace).fault
      ensures ok ==> alive && Disk().task.Some? && Disk().task.value.stage.Terminal()
      ensures trace.quiet ==> old(trace).quiet && (old(alive) ==> ok)
      ensures trace.quiet && old(alive) && !HasRollbackImages(task.original) ==>
                trace.log == old(trace).log && EndedAs(Disk().task, task, ManualIntervention, false, StateInvalid)
      ensures old(cancelled) && HasRollbackImages(task.original) && reports != ALL_OK ==> !ok
      ensures trace.quiet && old(alive) && HasRollbackImages(task.original) ==>
                && |reports| == 4 && trace.log == old(trace).log + RollbackLog(reports)
                && (if reports == ALL_OK then EndedAs(Disk().task, task, Failed, true, code)
                    else EndedAs(Disk().task, task, ManualIntervention, false, RollbackFailed))
      ensures Recovering(old(trace).log, trace.log)
    {
      hide TaskOk, VersionsOk, Recovering;
      ok, reports := false, [];
      NothingIssued(trace.log);
      var now: int := *;
      if !HasRollbackImages(task.original) {
        if alive {
          ManualIsSafe(task, host, facts, StateInvalid, now);
        }
        ok := SaveTask(Ended(task, ManualIntervention, false, StateInvalid, now));
        return;
      }
      var rolling := RollingTask(task, code);
      if alive {
        RollingTaskOk(task, code, host, facts);
      }
      var saved := SaveTask(rolling);
      if !saved {
        return;
      }
      var restored;
      restored, reports := RollBackServices(rolling);
      if !restored {
        var done := ContextDone();
        if done {
          return;
        }
      }
      var last := if restored then code else RollbackFailed;
      if alive {
        RolledBackIsTruthful(rolling, host, facts, restored, last, now);
      }
      ok := SaveTask(Ended(rolling, if restored then Failed else ManualIntervention, restored, last, now));
    }

    /** manager.handleFailure: a job that touched no container yet fails, one that did rolls back. */
    method HandleFailure(task: Task, code: Code, shouldRollback: bool) returns (ghost reports: seq<bool>)
      requires Inv()
      requires alive ==>
                && Owned(task.id) && Safe(task)
                && (if shouldRollback then task.stage.Late() && task.stage != Cleaning else task.stage.Early())
      modifies this, store
      ensures Inv() && (alive ==> old(alive)) && facts == old(facts)
      ensures trace.fault == old(trace).fault
      ensures trace.quiet ==> old(trace).quiet && (old(alive) ==> alive)
      ensures old(cancelled) ==> Disk() == old(Disk()) && host == old(host) && trace.log == old(trace).log
      ensures trace.quiet && old(alive) && !shouldRollback ==>
                trace.log == old(trace).log && EndedAs(Disk().task, task, Failed, false, code)
      ensures trace.quiet && old(alive) && shouldRollback ==>
                && |reports| == 4 && trace.log == old(trace).log + RollbackLog(reports)
                && (if reports == ALL_OK then EndedAs(Disk().task, task, Failed, true, code)
                    else EndedAs(Disk().task, task, ManualIntervention, false, RollbackFailed))
    {
      hide TaskOk, VersionsOk;
      reports := [];
      var done := ContextDone();
      if done {
        return;
      }
      if shouldRollback {
        if alive {
          LateCanRollBack(task, host, facts);
        }
        var ok;
        ok, reports := Rollback(task, code);
      } else {
        var now: int := *;
        if alive {
          EarlyFailureIsSafe(task, host, facts, code, now);
        }
        var ok := SaveTask(Ended(task, Failed, false, code, now));
      }
    }

    /** One round: both services must be healthy. */
    method Round(task: Task) returns (done: Task, ok: bool)
      requires Inv() && task.stage.Late() && task.stage != Cleaning
      requires alive ==> Owned(task.id) && Safe(task)
      modifies this, store
      ensures Inv() && (alive ==> old(alive)) && facts == old(facts)
      ensures done == task.(stage := Stabilizing)
      ensures alive ==> Owned(task.id) && Safe(done)
      ensures ok ==> alive && host == old(host) && trace.fault == old(trace).fault
      ensures ok ==> trace.log == old(trace).log + [Event(WaitHealthy(Backend), true)] + [Event(WaitHealthy(Web), true)]
      ensures !ok ==> trace.fault == Some(Stabilizing)
      ensures trace.quiet ==> old(trace).quiet && (old(alive) ==> alive)
    {
      hide TaskOk, VersionsOk;
      if alive {
        LateStagesAgree(task, Stabilizing, host, facts);
      }
      done, ok := Perform(task, Stabilizing, WaitHealthy(Backend));
      if ok {
        assert done == done.(stage := Stabilizing);
        done, ok := Perform(done, Stabilizing, WaitHealthy(Web));
      }
    }

    /** manager.stabilize: at least one round of health checks, any number of them. */
    method Stabilize(task: Task) returns (done: Task, ok: bool, ghost rounds: nat)
      requires Inv() && task.stage.Late() && task.stage != Cleaning
      requires alive ==> Owned(task.id) && Safe(task)
      modifies this, store
      ensures Inv() && (alive ==> old(alive)) && facts == old(facts)
      ensures done == task || done == task.(stage := Stabilizing)
      ensures alive ==> Owned(task.id) && Safe(done)
      ensures ok ==> alive && done.stage == Stabilizing && host == old(host) && rounds > 0
      ensures ok ==> trace.log == old(trace).log + Rounds(rounds) && trace.fault == old(trace).fault
      ensures !ok ==> trace.fault == Some(Stabilizing)
      ensures trace.quiet ==> old(trace).quiet && (old(alive) ==> alive)
    {
      hide Inv, Safe;
      var budget: nat := *;
      var again := true;   // the deadline has not passed
      done, ok, rounds := task, true, 0;
      while ok && again
        invariant Inv() && (alive ==> old(alive)) && facts == old(facts)
        invariant done == task || done == task.(stage := Stabilizing)
        invariant alive ==> Owned(task.id) && Safe(done)
        invariant ok && rounds > 0 ==> alive && done.stage == Stabilizing
        invariant ok ==>
                  host == old(host) && trace.log == old(trace).log + Rounds(rounds) && trace.fault == old(trace).fault
        invariant !ok ==> trace.fault == Some(Stabilizing)
        invariant trace.quiet ==> old(trace).quiet && (old(alive) ==> alive)
        invariant ok && !again ==> rounds > 0
        decreases ok, budget, again
      {
        var interrupted := ContextDone();
        if interrupted {
          ok := false;
          trace := trace.(fault := Some(Stabilizing));
        } else {
          done, ok := Round(done);
          rounds := rounds + 1;
        }
        if budget > 0 {
          budget := budget - 1;
        } else {
          again := false;
        }
      }
    }

    /** The cleanup of one service: write the stage, remove the old image, write again. */
    method CleanService(task: Task, service: Service) returns (ok: bool, removed: bool)
      requires Inv() && task.stage == Cleaning && RunsPair(host.running, task.target)
      requires alive ==> Owned(task.id) && Safe(task)
      modifies this, store
      ensures Inv() && (alive ==> old(alive)) && cancelled == old(cancelled)
      ensures facts.start == old(facts).start && facts.attempted == old(facts).attempted
      ensures RunsPair(host.running, task.target)
      ensures ok ==> alive && Disk().task == Some(task) && Safe(task)
      ensures trace.fault == old(trace).fault
      ensures trace.quiet ==> old(trace).quiet && (old(alive) ==> ok)
      ensures ok ==> trace.log == old(trace).log + [Event(RemoveOld(service), removed)]
      ensures Recovering(old(trace).log, trace.log)
    {
      hide TaskOk, VersionsOk, Recovering;
      removed := false;
      ok := SaveTask(task);
      NothingIssued(trace.log);
      if ok {
        ghost var before := host;
        var done;
        done, removed := Execute(RemoveOld(service), task);
        RecoveringStep(old(trace).log, old(trace).log, trace.log, RemoveOld(service));
        RemovalIsHarmless(task, done, service, before, host, removed, facts);
        CleaningIsRecorded(Some(task), host, facts);
        ok := SaveTask(task);
      }
    }

    /** The cleanup after a successful switch, of the job and of a restarted updater alike. */
    method CleanUp(task: Task) returns (ok: bool, removedBackend: bool, removedWeb: bool)
      requires Inv() && RunsPair(host.running, task.target)
      requires alive ==> Owned(task.id) && Safe(task.(stage := Cleaning))
      modifies this, store
      ensures Inv() && (alive ==> old(alive)) && cancelled == old(cancelled)
      ensures facts.start == old(facts).start && facts.attempted == old(facts).attempted
      ensures trace.fault == old(trace).fault
      ensures ok ==> alive && RunsPair(host.running, task.target)
      ensures ok ==> FinishedAs(Disk().task, task, removedBackend && removedWeb)
      ensures ok ==> Disk().lastCheck.Some? && Disk().lastCheck.value.current == task.target
      ensures trace.quiet ==> old(trace).quiet && (old(alive) ==> ok)
      ensures ok ==>
                trace.log ==
                  old(trace).log + [Event(RemoveOld(Backend), removedBackend)] + [Event(RemoveOld(Web), removedWeb)]
      ensures Recovering(old(trace).log, trace.log)
    {
      hide TaskOk, VersionsOk, Recovering;
      var cleaning := task.(stage := Cleaning);
      removedWeb := false;
      ok, removedBackend := CleanService(cleaning, Backend);
      if !ok {
        return;
      }
      ghost var log := trace.log;
      ok, removedWeb := CleanService(cleaning, Web);
      RecoveringTwice(old(trace).log, log, trace.log);
      if !ok {
        return;
      }
      var now: int := *;
      var finished := Finished(task, Some(now), removedBackend && removedWeb);
      assert finished == Finished(cleaning, Some(now), removedBackend && removedWeb);
      SucceededIsTruthful(cleaning, Some(now), removedBackend && removedWeb, host, facts);
      ok := FinishTask(finished);
    }

    /** Step n of the plan, and the end of the job when it fails. */
    method Step(task: Task, stage: Stage, action: Action, code: Code, shouldRollback: bool, ghost before: seq<Event>,
                ghost n: nat)
      returns (done: Task, ok: bool, ghost reports: seq<bool>)
      requires Inv() && alive && trace.fault == None
      requires n < |PLAN| && PLAN[n] == Event(action, true) && STAGES[n] == stage && StepOf(action, stage)
      requires shouldRollback <==> !stage.Early()
      requires Owned(task.id) && Safe(task.(stage := stage)) && Reached(before, trace.log, n)
      modifies this, store
      ensures Inv()
      ensures facts == old(facts) || facts == Issuing(action, old(facts))
      ensures done.id == task.id && done.target == task.target && done.stage == stage
      ensures action.DeployTarget? || action.WaitHealthy? || action.Pull? ==> done == task.(stage := stage)
      ensures ok ==>
                && alive && Owned(task.id) && Safe(done)
                && Effect(action, task.(stage := stage), done, old(host), host, true)
      ensures ok ==> Disk().task == Some(done) && trace.fault == None && Reached(before, trace.log, n + 1)
      ensures trace.quiet ==> old(trace).quiet && alive
      ensures !ok && trace.quiet && code == CodeOf(stage) ==> StoppedAt(task, before, n, reports)
    {
      hide TaskOk, VersionsOk, Effect, Reached, FailureLog, Safe, StepOf, PLAN, STAGES;
      StepInStage(action, stage);
      reports := [];
      done, ok := Perform(task, stage, action);
      ghost var middle := trace.log;
      Advance(before, old(trace).log, middle, n);
      if !ok {
        reports := HandleFailure(done, code, shouldRollback);
      }
    }

    /** The first half of manager.run, in three parts: inspect both services, */
    method InspectBoth(task: Task, ghost before: seq<Event>) returns (done: Task, ok: bool, ghost n: nat)
      requires Inv() && alive && trace.fault == None && Reached(before, trace.log, 0)
      requires Owned(task.id) && Safe(task) && task.stage == Checking
      modifies this, store
      ensures Inv() && facts == old(facts)
      ensures done.id == task.id && done.target == task.target
      ensures ok ==> alive && Owned(task.id) && trace.fault == None && Reached(before, trace.log, 2)
      ensures ok ==>
                Safe(done) && done.stage == Checking && Inspected(done, host, Backend) && Inspected(done, host, Web)
      ensures trace.quiet ==> old(trace).quiet && alive
      ensures !ok && trace.quiet ==> StoppedAt(task, before, n, [])
    {
      hide TaskOk, VersionsOk, Effect, Inspected, Reached, FailureLog;
      ghost var reports;
      n := 0;
      EarlyStagesAgree(task, Checking, host, facts);
      done, ok, reports := Step(task, Checking, Inspect(Backend), StateInvalid, false, before, n);
      if !ok {
        return;
      }
      InspectRecords(task, Checking, done, Backend, old(host), host);
      n := 1;
      ghost var was, from := host, done;
      EarlyStagesAgree(done, Checking, host, facts);
      done, ok, reports := Step(done, Checking, Inspect(Web), StateInvalid, false, before, n);
      if !ok {
        return;
      }
      InspectRecords(from, Checking, done, Web, was, host);
    }

    /** tag what they run with the rollback aliases, */
    method AliasBoth(task: Task, ghost before: seq<Event>) returns (done: Task, ok: bool, ghost n: nat)
      requires Inv() && alive && trace.fault == None && Reached(before, trace.log, 2)
      requires Owned(task.id) && Safe(task) && task.stage == Checking && Inspected(task, host, Backend)
      requires Inspected(task, host, Web)
      modifies this, store
      ensures Inv() && facts == old(facts)
      ensures done.id == task.id && done.target == task.target
      ensures ok ==> alive && Owned(task.id) && trace.fault == None && Reached(before, trace.log, 4)
      ensures ok ==>
                && Safe(done) && done.stage == BackingUp && Prepared(done, host, facts, Backend)
                && Prepared(done, host, facts, Web)
      ensures trace.quiet ==> old(trace).quiet && alive
      ensures !ok && trace.quiet ==> StoppedAt(task, before, n, [])
    {
      hide TaskOk, VersionsOk, Effect, Inspected, Prepared, Reached, FailureLog;
      ghost var reports;
      n := 2;
      EarlyStagesAgree(task, BackingUp, host, facts);
      done, ok, reports := Step(task, BackingUp, CreateAlias(Backend), BackupFailed, false, before, n);
      if !ok {
        return;
      }
      AliasPrepares(task, BackingUp, done, Backend, old(host), host, facts);
      n := 3;
      ghost var was, from := host, done;
      EarlyStagesAgree(done, BackingUp, host, facts);
      done, ok, reports := Step(done, BackingUp, CreateAlias(Web), BackupFailed, false, before, n);
      if !ok {
        return;
      }
      AliasPrepares(from, BackingUp, done, Web, was, host, facts);
    }

    /** back up the database and pull both images. */
    method BackUpDatabase(task: Task, ghost before: seq<Event>) returns (done: Task, ok: bool, ghost n: nat)
      requires Inv() && alive && trace.fault == None && Reached(before, trace.log, 4)
      requires Owned(task.id) && Safe(task) && task.stage == BackingUp && Prepared(task, host, facts, Backend)
      requires Prepared(task, host, facts, Web)
      modifies this, store
      ensures Inv() && facts == old(facts)
      ensures done.id == task.id && done.target == task.target
      ensures ok ==> alive && Owned(task.id) && trace.fault == None && Reached(before, trace.log, 5)
      ensures ok ==>
                && Safe(done) && done.stage == BackingUp && Prepared(done, host, facts, Backend)
                && Prepared(done, host, facts, Web)
      ensures trace.quiet ==> old(trace).quiet && alive
      ensures !ok && trace.quiet ==> StoppedAt(task, before, n, [])
    {
      hide TaskOk, VersionsOk, Effect, Prepared, Reached, FailureLog;
      ghost var reports;
      n := 4;
      EarlyStagesAgree(task, BackingUp, host, facts);
      done, ok, reports := Step(task, BackingUp, Backup, BackupFailed, false, before, n);
      if ok {
        PreparationStays(Backup, task, BackingUp, done, old(host), host, facts);
      }
    }

    method PullBoth(task: Task, ghost before: seq<Event>) returns (done: Task, ok: bool, ghost n: nat)
      requires Inv() && alive && trace.fault == None && Reached(before, trace.log, 5)
      requires Owned(task.id) && Safe(task) && task.stage == BackingUp && Prepared(task, host, facts, Backend)
      requires Prepared(task, host, facts, Web)
      modifies this, store
      ensures Inv() && facts == old(facts)
      ensures done.id == task.id && done.target == task.target
      ensures ok ==> alive && Owned(task.id) && trace.fault == None && Reached(before, trace.log, 7)
      ensures ok ==>
                && Safe(done) && done.stage == Pulling && Prepared(done, host, facts, Backend)
                && Prepared(done, host, facts, Web)
      ensures trace.quiet ==> old(trace).quiet && alive
      ensures !ok && trace.quiet ==> StoppedAt(task, before, n, [])
    {
      hide TaskOk, VersionsOk, Effect, Prepared, Reached, FailureLog;
      ghost var reports;
      n := 5;
      EarlyStagesAgree(task, Pulling, host, facts);
      done, ok, reports := Step(task, Pulling, Pull(Backend), PullFailed, false, before, n);
      if !ok {
        return;
      }
      PreparationStays(Pull(Backend), task, Pulling, done, old(host), host, facts);
      n := 6;
      ghost var was, from := host, done;
      EarlyStagesAgree(done, Pulling, host, facts);
      done, ok, reports := Step(done, Pulling, Pull(Web), PullFailed, false, before, n);
      if !ok {
        return;
      }
      PreparationStays(Pull(Web), from, Pulling, done, was, host, facts);
    }

    /** The second half of manager.run switches one service after the other. */
    method SwitchBackend(task: Task, ghost before: seq<Event>)
      returns (done: Task, ok: bool, ghost n: nat, ghost reports: seq<bool>)
      requires Inv() && alive && trace.fault == None && Reached(before, trace.log, 7)
      requires Owned(task.id) && Safe(task.(stage := SwitchingBackend))
      modifies this, store
      ensures Inv() && facts.start == old(facts).start
      ensures done.id == task.id && done.target == task.target
      ensures ok ==> alive && Owned(task.id) && trace.fault == None && Reached(before, trace.log, 9)
      ensures ok ==>
                Safe(done) && done.stage == CheckingBackend && RunsDigest(host.running.backend, task.target.backend)
      ensures trace.quiet ==> old(trace).quiet && alive
      ensures !ok && trace.quiet ==> StoppedAt(task, before, n, reports)
    {
      hide Inv, Safe, Effect, Reached, RunsDigest, StoppedAt;
      n := 7;
      done, ok, reports := Step(task, SwitchingBackend, DeployTarget(Backend), BackendSwitchFailed, true, before, n);
      if !ok {
        return;
      }
      DeployRuns(task, SwitchingBackend, done, Backend, old(host), host);
      n := 8;
      ghost var was, from := host, done;
      SafeLater(done, CheckingBackend);
      done, ok, reports := Step(done, CheckingBackend, WaitHealthy(Backend), BackendUnhealthy, true, before, n);
      if !ok {
        StoppedTheSame(from, task, before, n, reports);
        return;
      }
      WaitingChangesNothing(from, CheckingBackend, done, Backend, was, host);
    }

    method SwitchWeb(task: Task, ghost before: seq<Event>)
      returns (done: Task, ok: bool, ghost n: nat, ghost reports: seq<bool>)
      requires Inv() && alive && trace.fault == None && Reached(before, trace.log, 9)
      requires Owned(task.id) && Safe(task) && task.stage == CheckingBackend
      requires RunsDigest(host.running.backend, task.target.backend)
      modifies this, store
      ensures Inv() && facts.start == old(facts).start
      ensures done.id == task.id && done.target == task.target
      ensures ok ==> alive && Owned(task.id) && trace.fault == None && Reached(before, trace.log, 11)
      ensures ok ==> Safe(done) && done.stage == CheckingWeb && RunsPair(host.running, task.target)
      ensures trace.quiet ==> old(trace).quiet && alive
      ensures !ok && trace.quiet ==> StoppedAt(task, before, n, reports)
    {
      hide Inv, Safe, Effect, Reached, RunsDigest, StoppedAt;
      n := 9;
      SafeLater(task, SwitchingWeb);
      done, ok, reports := Step(task, SwitchingWeb, DeployTarget(Web), WebSwitchFailed, true, before, n);
      if !ok {
        return;
      }
      DeployRuns(task, SwitchingWeb, done, Web, old(host), host);
      assert host.running.Of(Backend) == old(host).running.Of(Backend);
      n := 10;
      ghost var was, from := host, done;
      SafeLater(done, CheckingWeb);
      done, ok, reports := Step(done, CheckingWeb, WaitHealthy(Web), WebUnhealthy, true, before, n);
      if !ok {
        StoppedTheSame(from, task, before, n, reports);
        return;
      }
      WaitingChangesNothing(from, CheckingWeb, done, Web, was, host);
    }

    method PrepareAll(task: Task, ghost before: seq<Event>) returns (done: Task, ok: bool, ghost n: nat)
      requires Inv() && alive && trace.fault == None && Reached(before, trace.log, 0)
      requires Owned(task.id) && Safe(task) && task.stage == Checking
      modifies this, store
      ensures Inv() && facts == old(facts)
      ensures done.id == task.id && done.target == task.target
      ensures ok ==> alive && Owned(task.id) && trace.fault == None && Reached(before, trace.log, 7)
      ensures ok ==>
                && Safe(done) && done.stage == Pulling && Prepared(done, host, facts, Backend)
                && Prepared(done, host, facts, Web)
      ensures trace.quiet ==> old(trace).quiet && alive
      ensures !ok && trace.quiet ==> StoppedAt(task, before, n, [])
    {
      hide Inv, Safe, Prepared, Inspected, Reached, LogEndsAt;
      done, ok, n := InspectBoth(task, before);
      if ok {
        done, ok, n := AliasBoth(done, before);
      }
      if ok {
        done, ok, n := BackUpDatabase(done, before);
      }
      if ok {
        done, ok, n := PullBoth(done, before);
      }
    }

    /** The stabilizing window, and the end of the job when a service does not hold out. */
    method HoldOut(task: Task) returns (done: Task, ok: bool, ghost rounds: nat, ghost reports: seq<bool>)
      requires Inv() && alive && trace.fault == None && task.stage == CheckingWeb
      requires Owned(task.id) && Safe(task) && RunsPair(host.running, task.target)
      modifies this, store
      ensures Inv() && facts == old(facts)
      ensures done.id == task.id && done.target == task.target
      ensures ok ==> alive && Owned(task.id) && Safe(done) && done.stage == Stabilizing && trace.fault == None
      ensures ok ==> RunsPair(host.running, task.target) && rounds > 0 && trace.log == old(trace).log + Rounds(rounds)
      ensures trace.quiet ==> old(trace).quiet && alive
      ensures !ok ==> trace.fault == Some(Stabilizing)
      ensures !ok && trace.quiet ==> EndedBy(Disk().task, task, Stabilizing, reports)
    {
      hide TaskOk, VersionsOk, RunsPair, Rounds;
      reports := [];
      done, ok, rounds := Stabilize(task);
      if !ok {
        reports := HandleFailure(done, StabilityFailed, true);
      }
    }

    method SwitchBoth(task: Task, ghost before: seq<Event>)
      returns (done: Task, ok: bool, ghost n: nat, ghost rounds: nat, ghost reports: seq<bool>)
      requires Inv() && alive && trace.fault == None && Reached(before, trace.log, 7)
      requires Owned(task.id) && Safe(task.(stage := SwitchingBackend))
      modifies this, store
      ensures Inv() && facts.start == old(facts).start
      ensures done.id == task.id && done.target == task.target
      ensures ok ==> alive && Owned(task.id) && Safe(done) && done.stage == Stabilizing && trace.fault == None
      ensures ok ==> RunsPair(host.running, task.target) && rounds > 0 && trace.log == before + PLAN + Rounds(rounds)
      ensures trace.quiet ==> old(trace).quiet && alive
      ensures !ok && trace.quiet ==>
                && trace.fault.Some? && EndedBy(Disk().task, task, trace.fault.value, reports)
                && EndsIn(before, trace, n, reports)
    {
      hide Inv, Safe, Reached, LogEndsAt, RunsPair, RunsDigest, EndedBy, Rounds, PLAN, STAGES;
      rounds := 0;
      ghost var from := task;
      done, ok, n, reports := SwitchBackend(task, before);
      if ok {
        from := done;
        done, ok, n, reports := SwitchWeb(done, before);
      }
      if ok {
        PlanIsDone(before, trace.log);
        from := done;
        done, ok, rounds, reports := HoldOut(done);
      }
      if !ok && trace.quiet {
        EndsTheSame(Disk().task, from, task, trace.fault.value, reports);
      }
    }

    /** manager.run */
    method Run(task: Task)
      returns (ghost n: nat, ghost rounds: nat, ghost reports: seq<bool>, ghost removed: seq<bool>)
      requires Inv() && alive && trace.fault == None
      requires Disk().task == Some(task) && task.stage == Checking && SameVersion(task.target)
      modifies this, store
      ensures Inv() && facts.start == old(facts).start
      ensures trace.quiet ==> old(trace).quiet && alive
      // without a fault both services run the target, and every step was taken once and in order
      ensures trace.quiet && trace.fault == None ==>
                && |removed| == 2 && rounds > 0 && RunsPair(host.running, task.target)
                && CompletedFrom(Disk().task, task, removed[0] && removed[1])
                && Disk().lastCheck.Some? && Disk().lastCheck.value.current == task.target
                && trace.log == old(trace).log + PLAN + Rounds(rounds) + [Event(RemoveOld(Backend), removed[0])] +
                   [Event(RemoveOld(Web), removed[1])]
      // with one, the step that failed decides how the task ends and what the job still does
      ensures trace.quiet && trace.fault.Some? ==>
                EndedBy(Disk().task, task, trace.fault.value, reports) && EndsIn(old(trace).log, trace, n, reports)
    {
      hide TaskOk, Prepared, Reached, LogEndsAt, RunsDigest, RunsPair, VersionsOk, Rounds, CodeOf, PLAN, STAGES;
      ghost var before := trace.log;
      rounds, reports, removed := 0, [], [];
      Begin(before);
      var done, ok;
      done, ok, n := PrepareAll(task, before);
      if !ok {
        return;
      }
      PreparedIsSafe(done, host, facts);
      done, ok, n, rounds, reports := SwitchBoth(done, before);
      if !ok {
        return;
      }
      StabilizedMayClean(done, host, facts);
      var b, w;
      ok, b, w := CleanUp(done);
      removed := [b, w];
    }

    /** What a service runs, as a restarted updater finds out: the plain inspection,
        and after it the one that knows the rollback alias. */
    method InspectRecovery(service: Service, task: Task) returns (r: Option<Image>, ghost events: seq<Event>)
      requires Inv() && (alive ==> Disk().task == Some(task) && !task.stage.Terminal())
      modifies this, store
      ensures Inv() && (alive ==> old(alive)) && cancelled == old(cancelled) && host == old(host) && facts == old(facts)
      ensures Disk().task == old(Disk().task)
      ensures r.Some? ==> RunsDigest(host.running.Of(service), r.value)
      // while it lives it asks a second time exactly if the first answer failed and an alias is recorded
      ensures alive ==>
                trace.log == old(trace).log + events && Asked(task, service, events) && (r.Some? <==> Answered(events))
      ensures trace.fault == old(trace).fault && (trace.quiet ==> old(trace).quiet && (old(alive) ==> alive))
      ensures Recovering(old(trace).log, trace.log)
    {
      hide TaskOk, VersionsOk;
      var done, ok := Execute(Inspect(service), task);
      events := [Event(Inspect(service), ok)];
      if ok {
        return Some(done.original.Of(service)), events;
      }
      if task.original.Of(service).alias == NoAlias {
        return None, events;
      }
      ghost var log := trace.log;
      done, ok := Execute(InspectRollback(service), task);
      events := events + [Event(InspectRollback(service), ok)];
      RecoveringStep(old(trace).log, log, trace.log, InspectRollback(service));
      r := if ok then Some(task.original.Of(service)) else None;
    }

    /** A restarted updater that cannot tell what runs asks for help. */
    method GiveUp(task: Task) returns (ok: bool)
      requires Inv() && (alive ==> Disk().task == Some(task) && !task.stage.Terminal())
      modifies this, store
      ensures Inv() && (alive ==> old(alive)) && host == old(host) && facts == old(facts)
      ensures ok ==> alive && EndedAs(Disk().task, task, ManualIntervention, false, StateInvalid)
      ensures Disk().task == old(Disk().task) || EndedAs(Disk().task, task, ManualIntervention, false, StateInvalid)
      ensures old(cancelled) ==> Disk() == old(Disk()) && !ok
      ensures trace.quiet ==> old(trace).quiet && (old(alive) ==> ok)
      ensures trace.log == old(trace).log && trace.fault == old(trace).fault
    {
      hide TaskOk;
      ok := false;
      var done := ContextDone();
      if done {
        return;
      }
      var now: int := *;
      if alive {
        if task.stage.Early() {
          EarlyFailureIsSafe(task, host, facts, StateInvalid, now);
        } else {
          LateCanRollBack(task, host, facts);
          ManualIsSafe(task, host, facts, StateInvalid, now);
        }
      }
      ok := SaveTask(Ended(task, ManualIntervention, false, StateInvalid, now));
    }

    /** The first service that is not healthy ends it. */
    method WaitBothHealthy(task: Task) returns (healthy: bool, ghost events: seq<Event>)
      requires Inv() && (alive ==> Disk().task == Some(task) && !task.stage.Terminal())
      modifies this, store
      ensures Inv() && (alive ==> old(alive)) && cancelled == old(cancelled) && host == old(host) && facts == old(facts)
      ensures Disk().task == old(Disk().task)
      ensures healthy ==> events == [Event(WaitHealthy(Backend), true), Event(WaitHealthy(Web), true)]
      ensures !healthy && alive ==>
                || events == [Event(WaitHealthy(Backend), false)]
                || events == [Event(WaitHealthy(Backend), true), Event(WaitHealthy(Web), false)]
      ensures healthy || alive ==> trace.log == old(trace).log + events
      ensures trace.fault == old(trace).fault && (trace.quiet ==> old(trace).quiet && (old(alive) ==> alive))
      ensures Recovering(old(trace).log, trace.log)
    {
      hide TaskOk, VersionsOk, Recovering;
      ghost var before := trace.log;
      NothingIssued(before);
      var done;
      done, healthy := Execute(WaitHealthy(Backend), task);
      events := [Event(WaitHealthy(Backend), healthy)];
      RecoveringStep(before, before, trace.log, WaitHealthy(Backend));
      if !healthy {
        return;
      }
      ghost var middle := trace.log;
      done, healthy := Execute(WaitHealthy(Web), task);
      events := events + [Event(WaitHealthy(Web), healthy)];
      RecoveringStep(before, middle, trace.log, WaitHealthy(Web));
    }

    /** Recovery of a task found in stage cleaning. */
    method RecoverCleaning(task: Task, matches: bool)
      returns (ok: bool, ghost rest: seq<Event>, ghost reports: seq<bool>)
      requires Inv() && task.stage == Cleaning && (matches <==> RunsPair(host.running, task.target))
      requires alive ==> Disk().task == Some(task)
      modifies this, store
      ensures Inv() && (alive ==>
                old(alive)) && facts.start == old(facts).start && facts.attempted == old(facts).attempted
      ensures ok ==> alive && Disk().task.Some? && Disk().task.value.stage.Terminal()
      ensures trace.quiet ==> old(trace).quiet && (old(alive) ==> ok)
      ensures trace.quiet && old(alive) ==>
                && trace.log == old(trace).log + rest
                && (if matches then Rechecked(Disk().task, task, rest, reports)
                    else RolledBackAs(Disk().task, task, rest, reports))
      ensures Recovering(old(trace).log, trace.log)
    {
      hide TaskOk, Recovering, RunsPair, RollbackLog, EndedAs, Rechecked;
      ghost var before := trace.log;
      NothingIssued(before);
      if alive {
        LateCanRollBack(task, host, facts);
        // the source's own test for missing rollback images can never fire here
        assert HasRollbackImages(task.original);
      }
      var healthy := matches;
      rest, reports := [], [];
      if matches {
        healthy, rest := WaitBothHealthy(task);
      }
      ghost var checked := trace.log;
      if healthy {
        CleaningIsRecorded(Disk().task, host, facts);
        var b, w;
        ok, b, w := CleanUp(task);
        if ok {
          CleanedUp(Disk().task, task, rest, b, w);
        }
        rest, reports := rest + [Event(RemoveOld(Backend), b)] + [Event(RemoveOld(Web), w)], [b, w];
      } else {
        ok, reports := Rollback(task, UpdaterRestarted);
        if trace.quiet && old(alive) {
          if matches {
            RolledBackAfter(Disk().task, task, rest, reports);
          }
          rest := rest + RollbackLog(reports);
        }
      }
      RecoveringTwice(before, checked, trace.log);
    }

    /** Recovery of a task found before the first switch: it fails if nothing moved. */
    method RecoverEarly(task: Task, matches: bool) returns (ok: bool)
      requires Inv() && task.stage.Early() && (matches <==> RunsPair(host.running, task.original))
      requires alive ==> Disk().task == Some(task)
      modifies this, store
      ensures Inv() && (alive ==> old(alive)) && facts == old(facts)
      ensures ok ==> alive && Disk().task.Some? && Disk().task.value.stage.Terminal()
      ensures trace.quiet ==> old(trace).quiet && (old(alive) ==> ok)
      ensures trace.log == old(trace).log
      ensures trace.quiet && old(alive) ==>
                EndedAs(Disk().task, task, if matches then Failed else ManualIntervention, false,
                        if matches then UpdaterRestarted else StateInvalid)
    {
      hide TaskOk;
      var now: int := *;
      if alive {
        EarlyFailureIsSafe(task, host, facts, UpdaterRestarted, now);
        EarlyFailureIsSafe(task, host, facts, StateInvalid, now);
      }
      if matches {
        ok := SaveTask(Ended(task, Failed, false, UpdaterRestarted, now));
      } else {
        ok := SaveTask(Ended(task, ManualIntervention, false, StateInvalid, now));
      }
    }

    method RecoverTask(task: Task, actual: Pair) returns (ok: bool, ghost rest: seq<Event>, ghost reports: seq<bool>)
      requires Inv() && !task.stage.Terminal()
      requires alive ==> Disk().task == Some(task)
      requires RunsDigest(host.running.backend, actual.backend) && RunsDigest(host.running.web, actual.web)
      modifies this, store
      ensures Inv() && (alive ==>
                old(alive)) && facts.start == old(facts).start && facts.attempted == old(facts).attempted
      ensures ok ==> alive && Disk().task.Some? && Disk().task.value.stage.Terminal()
      ensures trace.quiet ==> old(trace).quiet && (old(alive) ==> ok)
      ensures trace.quiet && old(alive) ==>
                trace.log == old(trace).log + rest && Resumed(Disk().task, task, old(host).running, rest, reports)
      ensures Recovering(old(trace).log, trace.log)
    {
      hide TaskOk, Recovering, RollbackLog, EndedAs, Rechecked;
      NothingIssued(trace.log);
      rest, reports := [], [];
      if task.stage.Early() {
        ok := RecoverEarly(task, PairMatches(actual, task.original));
      } else if task.stage == Cleaning {
        ok, rest, reports := RecoverCleaning(task, PairMatches(actual, task.target));
      } else {
        if alive {
          LateCanRollBack(task, host, facts);
        }
        ok, reports := Rollback(task, UpdaterRestarted);
        if trace.quiet && old(alive) {
          rest := RollbackLog(reports);
        }
      }
    }

    /** Manager.Recover */
    method Recover()
      returns (ok: bool, ghost backend: seq<Event>, ghost web: seq<Event>, ghost rest: seq<Event>,
        ghost reports: seq<bool>)
      requires Inv() && alive
      modifies this, store
      ensures Inv() && facts.start == old(facts).start && facts.attempted == old(facts).attempted
      ensures ok && Disk().task.Some? ==> Disk().task.value.stage.Terminal()
      ensures !Unfinished(old(Disk())) ==>
                Disk() == old(Disk()) && host == old(host) && facts == old(facts) && trace.log == old(trace).log
      ensures trace.quiet ==> old(trace).quiet && ok
      ensures trace.quiet && Unfinished(old(Disk())) ==>
                && trace.log == old(trace).log + backend + web + rest
                && Recovered(Disk().task, old(Disk()).task.value, old(host).running, backend, web, rest, reports)
      ensures Recovering(old(trace).log, trace.log)
    {
      hide TaskOk, Recovering, VersionsOk, Asked, Answered, Resumed;
      ghost var before := trace.log;
      backend, web, rest, reports := [], [], [], [];
      NothingIssued(before);
      var state := Load();
      if state.None? {
        ok := false;
        return;
      }
      if !Unfinished(state.value) {
        ok := true;
        return;
      }
      var task := state.value.task.value;
      var b, w;
      b, backend := InspectRecovery(Backend, task);
      if b.None? {
        ok := GiveUp(task);
        return;
      }
      ghost var middle := trace.log;
      w, web := InspectRecovery(Web, task);
      RecoveringTwice(before, middle, trace.log);
      if w.None? {
        ok := GiveUp(task);
        return;
      }
      ghost var inspected := trace.log;
      ok, rest, reports := RecoverTask(task, Pair(b.value, w.value));
      RecoveringTwice(before, inspected, trace.log);
    }

    /** Any history of the updater: starts, checks, deaths at any point, restarts with their
        recovery, and jobs of replaced tasks that still try to write. However it goes, a task on
        disk that claims an outcome tells the truth, a mixed pair of services is only ever left
        under manual intervention, and manual intervention is never left. */
    method AnyHistory()
      requires Inv()
      modifies this, store
      ensures Inv()
      ensures Disk().task.Some? && Disk().task.value.stage == Succeeded ==>
                RunsPair(host.running, Disk().task.value.target)
      ensures Disk().task.Some? && Disk().task.value.stage == Failed ==> host.running == facts.start
      ensures Disk().task.Some? && facts.attempted ==>
                var task := Disk().task.value;
                && !task.stage.Early() && HasRollbackImages(task.original) && (task.stage == Failed ==> task.rolledBack)
                && AliasIntact(task, facts.start, host.tags, Backend, !facts.cleaned)
                && AliasIntact(task, facts.start, host.tags, Web, !facts.cleaned)
      ensures Disk().task.Some? ==> Disk().lastCheck.Some?
      ensures old(Disk()).task.Some? && old(Disk()).task.value.stage == ManualIntervention ==>
                Disk().task == old(Disk()).task
    {
      ghost var first := Disk();
      History(first);
    }

    method History(ghost first: Persistent)
      requires Inv() && first == Disk()
      modifies this, store
      ensures Inv()
      ensures first.task.Some? && first.task.value.stage == ManualIntervention ==> Disk().task == first.task
    {
      hide TaskOk, VersionsOk, Recovering, Recovered, EndedBy, EndsIn, CompletedFrom, Check;
      var n: nat := *;
      while n > 0
        invariant Inv()
        invariant first.task.Some? && first.task.value.stage == ManualIntervention ==> Disk().task == first.task
      {
        var event: nat := *;
        if event == 0 && !alive {
          alive, cancelled, trace := true, false, Trace([], true, None);
          var ok;
          ghost var backend, web, rest, reports;
          ok, backend, web, rest, reports := Recover();
          alive := alive && ok;    // the process exits when recovery fails
        } else if event == 1 && alive {
          var version: Version, now: int, id: nat := *, *, *;
          var r := Start(version, now, id);
          if r.Ok? {
            // the request is answered while the job runs, or after it
            var reply := Answer(r.value.id);
            trace := trace.(fault := None);
            ghost var k, rounds, reports, removed := Run(r.value);
          }
        } else if event == 2 && alive {
          var b: Option<Image>, w: Option<Image>, sb: Option<Image>, sw: Option<Image>, now: int := *, *, *, *, *;
          var view := CheckNow(b, w, sb, sw, now);
        } else if event == 3 {
          var stale: Task := *;
          if Disk().task.None? || Disk().task.value.id != stale.id {
            var ok := SaveTask(stale);
          }
        } else {
          alive := false;
        }
        n := n - 1;
      }
    }
  }
}
