/** The detached helper that installs a staged agent update and, if anything
    goes wrong, brings the last known good executable back.

    Every operation may fail, and a failing one may have done part of its work.
    In helper mode the installer leaves the life of the service to the helper
    (installer/windows/AceAgent.iss:223-228, 242-246). */
module UpdateHelper {
  import opened Prelude

  datatype Op = Stop | StopTray | BackUp | Install | Configure | Start | Healthy | Restore | Clean | StartTray

  datatype Call = Call(op: Op, ok: bool)

  /** One of the errors a run joins. */
  datatype Fault =
    | Invalid | Identity | Locked | Unavailable | Cancelled | ReleaseFailed
    | Update(op: Op)       // the step of the update that failed
    | Unchanged            // the restart of the service that was not updated
    | Back(op: Op)         // a step of the rollback

  const ROLLBACK: seq<Op> := [Stop, Restore, Configure, Start, Healthy]

  function Steps(tray: bool): seq<Op> {
    [Stop] + (if tray then [StopTray] else []) + [BackUp, Install, Configure, Start, Healthy]
  }

  function Succeeded(ops: seq<Op>): (r: seq<Call>)
    ensures |r| == |ops|
  {
    seq(|ops|, i requires 0 <= i < |ops| => Call(ops[i], true))
  }

  /** A rollback goes on after a failed restore, and stops at any other failure. */
  predicate RolledBack(calls: seq<Call>) {
    && 1 <= |calls| <= 5
    && (forall i :: 0 <= i < |calls| ==> calls[i].op == ROLLBACK[i])
    && (forall i :: 0 <= i < |calls| - 1 ==> calls[i].ok || calls[i].op == Restore)
    && (|calls| < 5 ==> !calls[|calls| - 1].ok && calls[|calls| - 1].op != Restore)
  }

  /** The errors a rollback adds: one for each call that failed, in order. */
  function Faults(calls: seq<Call>): seq<Fault> {
    if calls == [] then []
    else
      var last := calls[|calls| - 1];
      Faults(calls[..|calls| - 1]) + if last.ok then [] else [Back(last.op)]
  }

  lemma OneCallMore(calls: seq<Call>, call: Call)
    ensures Faults(calls + [call]) == Faults(calls) + if call.ok then [] else [Back(call.op)]
  {
    assert (calls + [call])[..|calls|] == calls;
  }

  /** The first n steps of the update succeeded. */
  predicate Reached(tray: bool, log: seq<Call>, n: nat) {
    n <= |Steps(tray)| && log == Succeeded(Steps(tray)[..n])
  }

  lemma Begin(tray: bool)
    ensures Reached(tray, [], 0)
  {
  }

  lemma Advance(tray: bool, log: seq<Call>, n: nat)
    requires Reached(tray, log, n) && n < |Steps(tray)|
    ensures Reached(tray, log + [Call(Steps(tray)[n], true)], n + 1)
  {
    assert Steps(tray)[..n + 1] == Steps(tray)[..n] + [Steps(tray)[n]];
  }

  predicate BeforeInstall(op: Op) {
    op == Stop || op == StopTray || op == BackUp
  }

  /** Step n of the update failed: before the installer the service is started again, later everything is rolled
      back. */
  predicate FailedAt(tray: bool, log: seq<Call>, errors: seq<Fault>, n: nat, calls: seq<Call>) {
    && n < |Steps(tray)|
    && var op := Steps(tray)[n];
       && log == Succeeded(Steps(tray)[..n]) + [Call(op, false)] + calls
       && if BeforeInstall(op) then
            |calls| == 1 && calls[0].op == Start && errors == [Update(op)] + if calls[0].ok then [] else [Unchanged]
          else RolledBack(calls) && errors == [Update(op)] + Faults(calls)
  }

  /** Every step succeeded, and only then the files of the update were removed. */
  predicate Completed(tray: bool, log: seq<Call>) {
    && |log| == |Steps(tray)| + 1 && log[..|Steps(tray)|] == Succeeded(Steps(tray)) && log[|Steps(tray)|].op == Clean
  }

  /** No step up to the restart failed. */
  predicate Returned(calls: seq<Call>) {
    |calls| == 5 && calls[0].ok && calls[1].ok && calls[2].ok && calls[3].ok
  }

  /** The errors of a run but for that of the release of its lock, which comes last. */
  function Own(errors: seq<Fault>): seq<Fault> {
    if errors != [] && errors[|errors| - 1] == ReleaseFailed then errors[..|errors| - 1] else errors
  }

  lemma OwnIs(errors: seq<Fault>)
    requires ReleaseFailed !in errors
    ensures Own(errors) == errors && Own(errors + [ReleaseFailed]) == errors
  {
    assert (errors + [ReleaseFailed])[..|errors|] == errors;
  }

  class Machine {
    var service: Option<nat>       // the program the service runs, if it runs
    var executable: Option<nat>    // the program in the executable file
    var backup: Option<nat>
    var configured: bool           // the service is registered for the executable
    var now: int
    var cancelled: bool
    ghost var log: seq<Call>
    const trayRuns: bool           // the tray process runs when the helper begins
    ghost const original: Option<nat>
    ghost var installed: Option<nat>    // what the installer left in the executable file
    ghost var attempts: seq<bool>       // what the attempts to restore the executable reported
    ghost var exposed: bool        // the executable was written while the service ran
    ghost var unprotected: bool    // or while no backup of the original existed

    constructor (service: Option<nat>, executable: Option<nat>, backup: Option<nat>, trayRuns: bool)
      ensures Untouched() && this.service == service && this.executable == executable
    {
      this.service, this.executable, this.backup, original := service, executable, backup, executable;
      configured, now, cancelled, log, this.trayRuns := true, 0, false, [], trayRuns;
      installed, attempts, exposed, unprotected := None, [], false, false;
    }

    ghost predicate Untouched()
      reads this
    {
      executable == original && log == [] && !exposed && !unprotected
    }

    /** What no operation other than those named changes. */
    twostate predicate Kept()
      reads this
    {
      && executable == old(executable) && backup == old(backup) && installed == old(installed)
      && exposed == old(exposed) && unprotected == old(unprotected) && now == old(now) && cancelled == old(cancelled)
    }

    // ---- Operations ----------------------------------------------------------------

    method StopService() returns (ok: bool)
      modifies this
      ensures Kept() && configured == old(configured) && log == old(log) + [Call(Stop, ok)]
      ensures service == None || (!ok && service == old(service))
    {
      ok := *;
      var stopped: bool := *;
      if ok || stopped {
        service := None;
      }
      log := log + [Call(Stop, ok)];
    }

    /** Starting a service that runs succeeds and changes nothing. */
    method StartService() returns (ok: bool)
      modifies this
      ensures Kept() && configured == old(configured) && log == old(log) + [Call(Start, ok)]
      ensures ok ==> service.Some? && service == if old(service).Some? then old(service) else executable
      ensures !ok ==> service == old(service) || service == executable
    {
      ok := *;
      var started: bool := *;
      ok := ok && (service.Some? || executable.Some?);
      if service.None? && (ok || started) {
        service := executable;
      }
      log := log + [Call(Start, ok)];
    }

    method StopTrayProcess() returns (ok: bool, running: bool)
      modifies this
      ensures Kept() && configured == old(configured) && service == old(service)
      ensures log == old(log) + [Call(StopTray, ok)] && (ok ==> running == trayRuns)
    {
      ok, running := *, *;
      running := if ok then trayRuns else running;
      log := log + [Call(StopTray, ok)];
    }

    method StartTrayProcess()
      modifies this
      ensures Kept() && configured == old(configured) && service == old(service)
        && exists ok :: log == old(log) + [Call(StartTray, ok)]
    {
      var ok: bool := *;
      log := log + [Call(StartTray, ok)];
    }

    method BackupExecutable() returns (ok: bool)
      modifies this
      ensures executable == old(executable) && service == old(service) && installed == old(installed)
      ensures log == old(log) + [Call(BackUp, ok)]
      ensures exposed == old(exposed) && unprotected == old(unprotected) && configured == old(configured)
      ensures ok ==> backup == executable
    {
      ok := *;
      backup := *;
      if ok {
        backup := executable;
      }
      log := log + [Call(BackUp, ok)];
    }

    method RunInstaller() returns (ok: bool)
      modifies this
      ensures service == old(service) && backup == old(backup) && installed == executable
      ensures log == old(log) + [Call(Install, ok)]
      ensures exposed == (old(exposed) || old(service).Some?)
      ensures unprotected == (old(unprotected) || old(backup) != original)
    {
      ok, executable, configured := *, *, *;
      installed := executable;
      exposed := exposed || service.Some?;
      unprotected := unprotected || backup != original;
      log := log + [Call(Install, ok)];
    }

    method ApplyServiceConfiguration() returns (ok: bool)
      modifies this
      ensures Kept() && service == old(service) && log == old(log) + [Call(Configure, ok)]
      ensures ok ==> configured
    {
      ok := *;
      configured := *;
      configured := configured || ok;
      log := log + [Call(Configure, ok)];
    }

    /** A service that does not run is not healthy. */
    method WaitHealthy() returns (ok: bool)
      modifies this
      ensures Kept() && configured == old(configured) && service == old(service)
      ensures log == old(log) + [Call(Healthy, ok)]
      ensures ok ==> service.Some?
    {
      ok := *;
      ok := ok && service.Some?;
      log := log + [Call(Healthy, ok)];
    }

    /** One attempt to copy the backup over the executable. */
    method RestoreExecutable() returns (ok: bool)
      modifies this
      ensures backup == old(backup) && service == old(service) && installed == old(installed)
      ensures configured == old(configured) && log == old(log)
      ensures ok ==> executable == backup
      ensures exposed == (old(exposed) || old(service).Some?)
      ensures unprotected == (old(unprotected) || old(backup) != original)
      ensures now >= old(now) && (old(cancelled) ==> cancelled) && attempts == old(attempts) + [ok]
    {
      var elapsed: nat, stopped: bool := *, *;
      ok, executable := *, *;
      attempts := attempts + [ok];
      if ok {
        executable := backup;
      }
      now, cancelled := now + elapsed, cancelled || stopped;
      exposed := exposed || service.Some?;
      unprotected := unprotected || backup != original;
    }

    method Cleanup() returns (ok: bool)
      modifies this
      ensures executable == old(executable) && service == old(service) && installed == old(installed)
      ensures configured == old(configured) && log == old(log) + [Call(Clean, ok)]
      ensures exposed == old(exposed) && unprotected == old(unprotected)
    {
      ok := *;
      var left: Option<nat> := *;
      backup := left;
      log := log + [Call(Clean, ok)];
    }

    // ---- The rollback -----------------------------------------------------------------

    /** restoreLastKnownGood: at least one attempt; it ends with the first success, the time limit, or the helper's
        own end. */
    method RestoreLastKnownGood(timeout: nat, interval: nat) returns (ok: bool, ghost reports: seq<bool>)
      requires service.None? && backup == original && interval > 0
      modifies this
      ensures log == old(log) + [Call(Restore, ok)] && attempts == old(attempts) + reports
      ensures reports != [] && ok == reports[|reports| - 1] && forall i :: 0 <= i < |reports| - 1 ==> !reports[i]
      ensures ok ==> executable == original
      ensures ok || cancelled || now >= old(now) + timeout
      ensures service.None? && backup == original && installed == old(installed) && configured == old(configured)
      ensures exposed == old(exposed) && unprotected == old(unprotected)
    {
      var deadline := now + timeout;
      reports := [];
      while true
        invariant attempts == old(attempts) + reports && forall i :: 0 <= i < |reports| ==> !reports[i]
        invariant log == old(log) && service.None? && backup == original && installed == old(installed)
        invariant configured == old(configured)
        invariant exposed == old(exposed) && unprotected == old(unprotected)
        decreases deadline - now
      {
        ok := RestoreExecutable();
        reports := reports + [ok];
        if ok || cancelled || now >= deadline {
          break;
        }
        // the timer and the end of the restore context may race
        now := now + interval;
        var ended: bool := *;
        if ended && now >= deadline {
          break;
        }
      }
      log := log + [Call(Restore, ok)];
    }

    /** rollbackHelper */
    method Rollback(cause: Op) returns (errors: seq<Fault>, ghost calls: seq<Call>)
      requires backup == original && !exposed && !unprotected
      modifies this
      ensures RolledBack(calls) && log == old(log) + calls && errors == [Update(cause)] + Faults(calls)
      ensures backup == original && installed == old(installed) && !exposed && !unprotected
      ensures Returned(calls) ==> executable == original && service == original && configured
      // the restore is given up only after five seconds
      ensures |calls| > 1 && !calls[1].ok ==> cancelled || now >= old(now) + 5000
    {
      hide Faults, RolledBack, Returned;
      NoFaults();
      NotStopped();
      var stopped := StopService();
      calls := [Call(Stop, stopped)];
      OneCallMore([], Call(Stop, stopped));
      assert [] + [Call(Stop, stopped)] == calls;
      errors := [Update(cause)];
      if !stopped {
        errors := errors + [Back(Stop)];
        return;
      }
      var restored;
      ghost var reports;
      restored, reports := RestoreLastKnownGood(5000, 250);
      OneCallMore(calls, Call(Restore, restored));
      calls := calls + [Call(Restore, restored)];
      errors := errors + if restored then [] else [Back(Restore)];
      errors, calls := BringBack(errors, calls);
    }

    /** The rollback after its restore. */
    method BringBack(before: seq<Fault>, ghost done: seq<Call>) returns (errors: seq<Fault>, ghost calls: seq<Call>)
      requires |done| == 2 && done[0] == Call(Stop, true) && done[1].op == Restore && before != []
      requires before[1..] == Faults(done) && service.None? && backup == original && !exposed && !unprotected
      requires done[1].ok ==> executable == original
      modifies this
      ensures RolledBack(calls) && done <= calls && log == old(log) + calls[2..]
      ensures errors == [before[0]] + Faults(calls) && now == old(now) && cancelled == old(cancelled)
      ensures backup == original && installed == old(installed) && !exposed && !unprotected
      ensures Returned(calls) ==> executable == original && service == original && configured
    {
      hide Faults;
      errors, calls := before, done;
      var configures := ApplyServiceConfiguration();
      OneCallMore(calls, Call(Configure, configures));
      calls := calls + [Call(Configure, configures)];
      if !configures {
        errors := errors + [Back(Configure)];
        return;
      }
      var started := StartService();
      OneCallMore(calls, Call(Start, started));
      calls := calls + [Call(Start, started)];
      if !started {
        errors := errors + [Back(Start)];
        return;
      }
      var healthy := WaitHealthy();
      OneCallMore(calls, Call(Healthy, healthy));
      calls := calls + [Call(Healthy, healthy)];
      errors := errors + if healthy then [] else [Back(Healthy)];
    }

    /** A step before the installer failed: the service is started as it was. */
    method StartUnchanged(op: Op) returns (errors: seq<Fault>, ghost calls: seq<Call>)
      requires executable == original
      modifies this
      ensures Kept() && configured == old(configured) && log == old(log) + calls
      ensures |calls| == 1 && calls[0].op == Start && errors == [Update(op)] + if calls[0].ok then [] else [Unchanged]
      ensures errors == [Update(op)] ==> service.Some? && (service == old(service) || service == original)
    {
      var ok := StartService();
      calls := [Call(Start, ok)];
      errors := if ok then [Update(op)] else [Update(op), Unchanged];
    }

    /** The steps before the installer. */
    method Prepare(tray: bool) returns (errors: seq<Fault>, trayWasRunning: bool, ghost n: nat, ghost calls: seq<Call>)
      requires Untouched()
      modifies this
      ensures executable == original && !exposed && !unprotected
      ensures trayWasRunning <==> trayRuns && Call(StopTray, true) in log
      ensures errors == [] ==>
                && service == None && backup == original && n < |Steps(tray)| && Steps(tray)[n] == Install
                && Reached(tray, log, n)
      ensures errors != [] ==> FailedAt(tray, log, errors, n, calls) && BeforeInstall(Steps(tray)[n])
      ensures errors != [] && Unchanged !in errors ==> service.Some? && (service == old(service) || service == original)
    {
      hide Reached, FailedAt;
      trayWasRunning, n, calls, errors := false, 0, [], [];
      Begin(tray);
      ghost var done := log;
      var ok := StopService();
      if !ok {
        errors, calls := StartUnchanged(Stop);
        FailsEarly(tray, done, n, log, errors, calls);
        return;
      }
      Advance(tray, done, n);
      n, done := 1, log;
      if tray {
        ok, trayWasRunning := StopTrayProcess();
        if !ok {
          trayWasRunning := false;
          errors, calls := StartUnchanged(StopTray);
          FailsEarly(tray, done, n, log, errors, calls);
          return;
        }
        Advance(tray, done, n);
        n, done := 2, log;
      }
      ok := BackupExecutable();
      if !ok {
        errors, calls := StartUnchanged(BackUp);
        FailsEarly(tray, done, n, log, errors, calls);
        return;
      }
      Advance(tray, done, n);
      n := n + 1;
    }

    /** The installer and everything after it. */
    method Apply(tray: bool, ghost from: nat) returns (errors: seq<Fault>, ghost n: nat, ghost calls: seq<Call>)
      requires from < |Steps(tray)| && Steps(tray)[from] == Install && Reached(tray, log, from)
      requires executable == original && service == None && backup == original && !exposed && !unprotected
      modifies this
      ensures !exposed && !unprotected && (Call(StopTray, true) in log <==> Call(StopTray, true) in old(log))
      ensures errors == [] ==>
                Completed(tray, log) && service.Some? && service == executable && executable == installed && configured
      ensures errors != [] ==>
                FailedAt(tray, log, errors, n, calls) && !BeforeInstall(Steps(tray)[n]) && backup == original
      ensures errors != [] && Returned(calls) ==> executable == original && service == original && configured
    {
      hide Reached, RolledBack, Faults, FailedAt, Completed, Steps;
      n, calls, errors := from, [], [];
      StepsFrom(tray, from);
      ghost var done := log;
      var ok := RunInstaller();
      if !ok {
        errors, calls := Rollback(Install);
        Fails(tray, done, n, log, errors, calls);
        return;
      }
      Advance(tray, done, n);
      n, done := n + 1, log;
      ok := ApplyServiceConfiguration();
      if !ok {
        errors, calls := Rollback(Configure);
        Fails(tray, done, n, log, errors, calls);
        return;
      }
      Advance(tray, done, n);
      n, done := n + 1, log;
      ok := StartService();
      if !ok {
        errors, calls := Rollback(Start);
        Fails(tray, done, n, log, errors, calls);
        return;
      }
      Advance(tray, done, n);
      n, done := n + 1, log;
      ok := WaitHealthy();
      if !ok {
        errors, calls := Rollback(Healthy);
        Fails(tray, done, n, log, errors, calls);
        return;
      }
      Advance(tray, done, n);
      n, done := n + 1, log;
      ok := Cleanup();    // a failure here is only a warning
      AllDone(tray, done, n, log);
    }

    /** RunHelper. A nil error is the empty sequence. */
    method RunHelper(valid: bool, identity: bool, locked: bool, available: bool, tray: bool)
      returns (errors: seq<Fault>, ghost body: seq<Call>, ghost n: nat, ghost calls: seq<Call>)
      requires Untouched()
      modifies this
      // the executable was never written while the service ran, nor without a backup of the original
      ensures !exposed && !unprotected
      // a test that fails names itself and nothing is done; the lock is released after all but the first three
      ensures !valid ==> errors == [Invalid]
      ensures valid && !identity ==> errors == [Identity]
      ensures valid && identity && locked ==> errors == [Locked]
      ensures valid && identity && !locked && !available ==> Own(errors) == [Unavailable]
      ensures valid && identity && !locked && available && old(cancelled) ==> Own(errors) == [Cancelled]
      ensures body != [] <==> valid && identity && !locked && available && !old(cancelled)
      ensures body == [] ==>
                && log == [] && executable == original && service == old(service) && backup == old(backup)
                && configured == old(configured)
      // the tray is started again exactly if it was stopped
      ensures if trayRuns && Call(StopTray, true) in body then exists ok :: log == body + [Call(StartTray, ok)]
              else log == body
      // no error but that of the release: every step succeeded in order, and the healthy service runs what was
      // installed
      ensures Own(errors) == [] <==> body != [] && Completed(tray, body)
      ensures Own(errors) == [] ==>
                service.Some? && service == executable && executable == installed && configured
      // otherwise the first step that failed decides what was still done, and nothing was removed
      ensures body != [] && !Completed(tray, body) ==>
                && FailedAt(tray, body, Own(errors), n, calls)
                && (if BeforeInstall(Steps(tray)[n]) then executable == original && (calls[0].ok ==> service.Some?)
                    else
                      && backup == original
                      && (Returned(calls) ==> executable == original && service == original && configured))
    {
      hide Completed, FailedAt, Returned, BeforeInstall;
      body, n, calls := [], 0, [];
      if !valid {
        return [Invalid], body, n, calls;
      }
      if !identity {
        return [Identity], body, n, calls;
      }
      if locked {
        return [Locked], body, n, calls;
      }
      if !available {
        errors := [Unavailable];
      } else if cancelled {
        errors := [Cancelled];
      } else {
        var trayWasRunning;
        errors, trayWasRunning, n, calls := Prepare(tray);
        if errors == [] {
          errors, n, calls := Apply(tray, n);
        } else {
          FailedBefore(tray, log, errors, n, calls);
        }
        body := log;
        Shape(tray, body, errors, n, calls);
        if trayWasRunning {
          StartTrayProcess();
        }
      }
      OwnIs(errors);
      var released: bool := *;
      if !released {
        errors := errors + [ReleaseFailed];
      }
    }
  }

  lemma NotStopped()
    ensures RolledBack([Call(Stop, false)]) && !Returned([Call(Stop, false)])
  {
  }

  lemma NoTray(calls: seq<Call>)
    requires RolledBack(calls)
    ensures Call(StopTray, true) !in calls
  {
  }

  lemma {:induction false} FaultsGoBack(calls: seq<Call>)
    ensures forall fault :: fault in Faults(calls) ==> fault.Back?
  {
    if calls != [] {
      FaultsGoBack(calls[..|calls| - 1]);
    }
  }

  lemma NoFaults()
    ensures Faults([]) == []
  {
  }

  lemma FailsEarly(tray: bool, done: seq<Call>, n: nat, log: seq<Call>, errors: seq<Fault>, calls: seq<Call>)
    requires Reached(tray, done, n) && n < |Steps(tray)| && log == done + [Call(Steps(tray)[n], false)] + calls
    requires BeforeInstall(Steps(tray)[n]) && |calls| == 1 && calls[0].op == Start
    requires errors == [Update(Steps(tray)[n])] + if calls[0].ok then [] else [Unchanged]
    ensures FailedAt(tray, log, errors, n, calls)
  {
  }

  lemma StepsFrom(tray: bool, n: nat)
    requires n < |Steps(tray)| && Steps(tray)[n] == Install
    ensures |Steps(tray)| == n + 4 && Steps(tray)[n + 1] == Configure && Steps(tray)[n + 2] == Start
    ensures Steps(tray)[n + 3] == Healthy
  {
  }

  lemma Fails(tray: bool, done: seq<Call>, n: nat, log: seq<Call>, errors: seq<Fault>, calls: seq<Call>)
    requires Reached(tray, done, n) && n < |Steps(tray)| && log == done + [Call(Steps(tray)[n], false)] + calls
    requires !BeforeInstall(Steps(tray)[n]) && RolledBack(calls) && errors == [Update(Steps(tray)[n])] + Faults(calls)
    ensures FailedAt(tray, log, errors, n, calls)
    ensures Call(StopTray, true) in log <==> Call(StopTray, true) in done
  {
    NoTray(calls);
  }

  lemma AllDone(tray: bool, done: seq<Call>, n: nat, log: seq<Call>)
    requires Reached(tray, done, n) && n == |Steps(tray)| && |log| == |done| + 1 && log[..|done|] == done
    requires log[|done|].op == Clean
    ensures Completed(tray, log)
  {
    assert Steps(tray)[..n] == Steps(tray);
  }

  lemma FailedBefore(tray: bool, log: seq<Call>, errors: seq<Fault>, n: nat, calls: seq<Call>)
    requires FailedAt(tray, log, errors, n, calls) && BeforeInstall(Steps(tray)[n])
    ensures |calls| == 1 && (calls[0].ok ==> Unchanged !in errors)
  {
  }

  lemma Shape(tray: bool, body: seq<Call>, errors: seq<Fault>, n: nat, calls: seq<Call>)
    ensures Completed(tray, body) ==> body != []
    ensures FailedAt(tray, body, errors, n, calls) ==>
              && body != [] && errors != [] && n < |Steps(tray)| && !Completed(tray, body)
              && errors[0].Update? && ReleaseFailed !in errors
  {
    FaultsGoBack(calls);
    assert FailedAt(tray, body, errors, n, calls) && Completed(tray, body) ==>
        Succeeded(Steps(tray))[n] == Call(Steps(tray)[n], false);
  }
}
