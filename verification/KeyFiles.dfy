/** Writing a new signing key pair as two files, as one transaction: either
    both halves are published under their names and nothing else is left, or
    everything the transaction created is taken back.

    Every file operation may fail. A failed write leaves any contents behind, a
    failed removal may have removed the file, and a failed link may have made
    the link. Paths name files one to one. */
module KeyFiles {
  import opened Prelude

  datatype Path = Path(directory: nat, name: nat)

  /** One half of a key, or what an interrupted write left. */
  datatype Contents = PrivateHalf(key: nat) | PublicHalf(key: nat) | Partial(length: nat)

  datatype File = File(contents: Contents, mode: nat)

  type Files = map<Path, File>

  const PRIVATE_MODE := 384    // 0600
  const PUBLIC_MODE := 420     // 0644

  /** A file the transaction created: a temporary one or a published one. */
  datatype Owned = Owned(path: Path, open: bool, present: bool)

  datatype Failure =
    | SamePath | Exists | InspectFailed | KeyFailed
    | CreateFailed | PermissionsFailed | WriteFailed | SyncFailed | CloseFailed
    | PublishFailed | DirectorySyncFailed

  datatype Outcome = Generated | Primary(failure: Failure) | RollbackIncomplete

  /** The paths the transaction still answers for. */
  ghost function Existing(owned: seq<Owned>): set<Path> {
    set i | 0 <= i < |owned| && owned[i].present :: owned[i].path
  }

  /** No earlier file was touched, and every new one is owned or a stray: made by a link that reported an error. */
  ghost predicate Covered(before: Files, files: Files, owned: seq<Owned>, strays: set<Path>) {
    && (forall p :: p in before ==> p in files && files[p] == before[p])
    && (forall p :: p in files ==> p in before || p in Existing(owned) || p in strays)
    && Existing(owned) !! before.Keys && strays !! before.Keys && strays <= files.Keys && Existing(owned) !! strays
  }

  lemma OneMore(owned: seq<Owned>, one: Owned)
    ensures Existing(owned + [one]) == Existing(owned) + if one.present then {one.path} else {}
  {
    var all := owned + [one];
    forall p | p in Existing(owned) ensures p in Existing(all) {
      var i :| 0 <= i < |owned| && owned[i].present && owned[i].path == p;
      assert all[i] == owned[i];
    }
    assert all[|owned|] == one;
  }

  lemma OneChanged(owned: seq<Owned>, i: nat, one: Owned)
    requires i < |owned| && one.path == owned[i].path && (one.present ==> owned[i].present)
    ensures Existing(owned[i := one]) <= Existing(owned)
    ensures one.present ==> Existing(owned[i := one]) == Existing(owned)
    ensures forall p :: p in Existing(owned) && p != one.path ==> p in Existing(owned[i := one])
  {
    var all := owned[i := one];
    forall p | p in Existing(owned) && (p != one.path || one.present) ensures p in Existing(all) {
      var j :| 0 <= j < |owned| && owned[j].present && owned[j].path == p;
      assert all[j] == if j == i then one else owned[j];
    }
  }

  /** No two owned files share a path. */
  ghost predicate Unique(owned: seq<Owned>) {
    forall i, j :: 0 <= i < j < |owned| && owned[i].present && owned[j].present ==> owned[i].path != owned[j].path
  }

  lemma OwnedExists(owned: seq<Owned>, i: nat)
    requires i < |owned| && owned[i].present
    ensures owned[i].path in Existing(owned)
  {
  }

  lemma FileAdded(before: Files, files: Files, owned: seq<Owned>, strays: set<Path>, one: Owned, file: File)
    requires Covered(before, files, owned, strays) && one.present && one.path !in files
    ensures Covered(before, files[one.path := file], owned + [one], strays)
    ensures Existing(owned) <= files.Keys && Unique(owned) ==>
              Existing(owned + [one]) <= files[one.path := file].Keys && Unique(owned + [one])
  {
    OneMore(owned, one);
    if Existing(owned) <= files.Keys && Unique(owned) {
      forall i | 0 <= i < |owned| && owned[i].present ensures owned[i].path != one.path {
        OwnedExists(owned, i);
      }
    }
  }

  lemma FileFilled(before: Files, files: Files, owned: seq<Owned>, strays: set<Path>, path: Path, file: File)
    requires Covered(before, files, owned, strays) && path in Existing(owned) && path in files
    ensures Covered(before, files[path := file], owned, strays)
  {
  }

  lemma FlagChanged(before: Files, files: Files, owned: seq<Owned>, strays: set<Path>, i: nat, one: Owned)
    requires i < |owned| && one.path == owned[i].path && one.present && owned[i].present
    ensures Covered(before, files, owned, strays) ==> Covered(before, files, owned[i := one], strays)
    ensures Unique(owned) ==> Unique(owned[i := one])
  {
    OneChanged(owned, i, one);
  }

  lemma StrayAdded(before: Files, files: Files, owned: seq<Owned>, stray: Path, file: File)
    requires Covered(before, files, owned, {}) && Existing(owned) <= files.Keys && stray !in files
    ensures Covered(before, files[stray := file], owned, {stray})
  {
  }

  lemma FileGone(before: Files, files: Files, files': Files, closed: seq<Owned>, owned: seq<Owned>, strays: set<Path>,
                 index: nat)
    requires Covered(before, files, closed, strays) && index < |closed| && closed[index].present
    requires files' == files || files' == files - {closed[index].path}
    requires owned == closed
      || (owned == closed[index := closed[index].(present := false)] && closed[index].path !in files')
    ensures Covered(before, files', owned, strays)
  {
    OwnedExists(closed, index);
    if owned != closed {
      OneChanged(closed, index, owned[index]);
    }
  }

  lemma FileGoneForward(files: Files, closed: seq<Owned>, index: nat)
    requires index < |closed| && closed[index].present && Existing(closed) <= files.Keys && Unique(closed)
    ensures var owned := closed[index := closed[index].(present := false)];
            Unique(owned) && Existing(owned) <= (files - {closed[index].path}).Keys
  {
    var owned := closed[index := closed[index].(present := false)];
    OneChanged(closed, index, owned[index]);
    forall p | p in Existing(owned) ensures p != closed[index].path {
      var j :| 0 <= j < |owned| && owned[j].present && owned[j].path == p;
      assert j != index;
    }
  }

  /** What may not survive a crash is in a directory that is noted, or that of an owned file. */
  ghost predicate Traced(dirty: set<nat>, affected: set<nat>, owned: seq<Owned>) {
    forall d :: d in dirty ==> d in affected || exists p :: p in Existing(owned) && p.directory == d
  }

  lemma NothingTraced(dirty: set<nat>, owned: seq<Owned>)
    requires Traced(dirty, {}, owned) && Existing(owned) == {}
    ensures dirty == {}
  {
    hide Existing;
    assert forall d :: d !in dirty;
  }

  /** Nothing is new and no file has other contents. */
  ghost predicate NoneNew(before: Files, after: Files) {
    forall p :: p in after ==> p in before && after[p] == before[p]
  }

  /** The operations on a temporary file that may fail. */
  predicate OfPreparation(failure: Failure) {
    failure in {CreateFailed, PermissionsFailed, WriteFailed, SyncFailed, CloseFailed}
  }

  lemma NothingExists(owned: seq<Owned>)
    requires forall i :: 0 <= i < |owned| ==> !owned[i].present
    ensures Existing(owned) == {}
  {
  }

  class Transaction {
    var files: Files
    var dirty: set<nat>            // directories with changes that may not survive a crash
    var owned: seq<Owned>
    var affected: set<nat>
    const directories: seq<nat>
    ghost const before: Files
    ghost var strays: set<Path>
    ghost var linkedAnyway: bool   // a link was made although it reported an error
    ghost var failed: bool         // some operation reported an error
    ghost var unclean: bool        // a removal did, or the sync of a directory during the rollback
    ghost var stuck: set<Path>     // the files whose removal reported an error
    ghost var unsynced: set<nat>   // the directories whose sync did

    ghost predicate Valid()
      reads this
    {
      && Covered(before, files, owned, strays)
      && (strays == {} ==> dirty <= affected)
      && Traced(dirty, affected, owned)
      && (linkedAnyway <==> strays != {})
      && (forall d :: d in affected ==> d in directories)
      && (forall p :: p in Existing(owned) ==> p.directory in directories)
    }

    /** While nothing was taken back, every owned file is there. */
    ghost predicate Forward()
      reads this
    {
      Valid() && Existing(owned) <= files.Keys && Unique(owned) && strays == {}
    }

    constructor (files: Files, publicPath: Path, privatePath: Path)
      ensures Forward() && before == this.files == files && owned == [] && affected == dirty == {} && !failed
      ensures !unclean
      ensures directories == [publicPath.directory, privatePath.directory]
    {
      this.files, before, dirty, owned, affected := files, files, {}, [], {};
      directories := [publicPath.directory, privatePath.directory];
      strays, linkedAnyway, failed, unclean, stuck, unsynced := {}, false, false, false, {}, {};
    }

    // ---- File operations --------------------------------------------------------

    method CreateTemp(directory: nat) returns (r: Option<Path>)
      modifies this`files, this`dirty, this`failed
      ensures r.None? ==> files == old(files) && dirty == old(dirty) && failed
      ensures r.Some? ==>
                && r.value.directory == directory && r.value !in old(files) && failed == old(failed)
                && files == old(files)[r.value := File(Partial(0), PRIVATE_MODE)] && dirty == old(dirty) + {directory}
    {
      var name: nat, ok: bool := *, *;
      if !ok || Path(directory, name) in files {
        failed := true;
        return None;
      }
      r := Some(Path(directory, name));
      files := files[r.value := File(Partial(0), PRIVATE_MODE)];
      dirty := dirty + {directory};
    }

    /** Chmod, Write, Sync and Close of a temporary file: the first to fail stops the rest. */
    method Fill(path: Path, contents: Contents, mode: nat) returns (r: Option<Failure>)
      requires path in files
      modifies this`files, this`failed
      ensures path in files && files == old(files)[path := files[path]]
      ensures r.None? ==> files[path] == File(contents, mode) && failed == old(failed)
      ensures r.Some? ==> failed && OfPreparation(r.value)
    {
      var permitted: bool, written: bool, synced: bool, closed: bool := *, *, *, *;
      var left: Contents, was: nat := *, *;
      r := if !permitted then Some(PermissionsFailed)
           else if !written then Some(WriteFailed)
           else if !synced then Some(SyncFailed)
           else if !closed then Some(CloseFailed)
           else None;
      if r.Some? {
        failed := true;
        files := files[path := File(left, was)];
      } else {
        files := files[path := File(contents, mode)];
      }
    }

    method Link(source: Path, destination: Path) returns (ok: bool)
      requires source in files
      modifies this`files, this`dirty, this`strays, this`linkedAnyway, this`failed
      ensures ok ==>
                && destination !in old(files) && files == old(files)[destination := old(files)[source]]
                && dirty == old(dirty) + {destination.directory}
      ensures ok ==> strays == old(strays) && linkedAnyway == old(linkedAnyway) && failed == old(failed)
      ensures !ok ==> failed
      ensures !ok && !linkedAnyway ==> files == old(files) && strays == old(strays) && dirty == old(dirty)
      ensures old(linkedAnyway) ==> linkedAnyway
      ensures !ok && linkedAnyway && !old(linkedAnyway) ==>
                && destination !in old(files) && files == old(files)[destination := old(files)[source]]
                && strays == old(strays) + {destination} && dirty == old(dirty) + {destination.directory}
    {
      ok := *;
      var made: bool := *;
      ok := ok && destination !in files;
      if destination !in files && (ok || made) {
        files := files[destination := files[source]];
        dirty := dirty + {destination.directory};
        if !ok {
          strays := strays + {destination};
          linkedAnyway := true;
        }
      }
      if !ok {
        failed := true;
      }
    }

    method Remove(path: Path) returns (ok: bool)
      modifies this`files, this`dirty, this`failed, this`unclean, this`stuck
      ensures files == old(files) || files == old(files) - {path}
      ensures dirty == if files == old(files) then old(dirty) else old(dirty) + {path.directory}
      ensures ok ==> path !in files && failed == old(failed) && unclean == old(unclean)
      ensures !ok ==> failed && unclean
      ensures stuck == old(stuck) + if ok then {} else {path}
    {
      ok := *;
      var removed: bool := *;
      if path in files && (ok || removed) {
        files := files - {path};
        dirty := dirty + {path.directory};
      }
      if !ok {
        failed, unclean, stuck := true, true, stuck + {path};
      }
    }

    // ---- The transaction ----------------------------------------------------------

    method Prepare(destination: Path, contents: Contents, mode: nat) returns (r: Result<nat, Failure>)
      requires Forward() && destination.directory in directories
      modifies this
      ensures Forward() && |old(owned)| <= |owned| && owned[..|old(owned)|] == old(owned) && unclean == old(unclean)
      ensures r.Ok? ==>
                && r.value == |old(owned)| && |owned| == r.value + 1 && owned[r.value].present && failed == old(failed)
                && owned[r.value].path.directory == destination.directory
                && affected == old(affected) + {destination.directory}
                && owned[r.value].path !in old(files)
                && files == old(files)[owned[r.value].path := File(contents, mode)]
      ensures r.Err? ==> failed && OfPreparation(r.error)
    {
      hide Covered, Existing;
      var path := CreateTemp(destination.directory);
      if path.None? {
        return Err(CreateFailed);
      }
      var file := Owned(path.value, true, true);
      OneMore(owned, file);
      FileAdded(before, old(files), owned, strays, file, files[path.value]);
      owned := owned + [file];
      affected := affected + {destination.directory};
      ghost var created := files;
      var failure := Fill(path.value, contents, mode);
      FileFilled(before, created, owned, strays, path.value, files[path.value]);
      if failure.Some? {
        return Err(failure.value);
      }
      var index := |owned| - 1;
      OneChanged(owned, index, owned[index].(open := false));
      FlagChanged(before, files, owned, strays, index, owned[index].(open := false));
      owned := owned[index := owned[index].(open := false)];
      r := Ok(index);
    }

    method Publish(temporary: nat, destination: Path) returns (ok: bool)
      requires Forward() && temporary < |owned| && owned[temporary].present && destination.directory in directories
      requires owned[temporary].path.directory == destination.directory
      modifies this
      ensures Valid() && unclean == old(unclean)
      ensures ok ==>
                && Forward() && failed == old(failed) && destination !in old(files)
                && owned == old(owned) + [Owned(destination, false, true)]
                && affected == old(affected) + {destination.directory}
                && owned[temporary].path in old(files)
                && files == old(files)[destination := old(files)[owned[temporary].path]]
      ensures !ok ==> failed && owned == old(owned) && (linkedAnyway ==> destination !in old(files))
      ensures !ok ==>
                && owned[temporary].path in old(files)
                && strays == (if linkedAnyway then {destination} else {})
                && files == if linkedAnyway then old(files)[destination := old(files)[owned[temporary].path]]
                            else old(files)
    {
      hide Covered, Existing;
      OwnedExists(owned, temporary);
      ok := Link(owned[temporary].path, destination);
      if !ok {
        if strays != {} {
          assert strays == {destination};
          StrayAdded(before, old(files), owned, destination, files[destination]);
        }
        return;
      }
      var file := Owned(destination, false, true);
      OneMore(owned, file);
      FileAdded(before, old(files), owned, strays, file, files[destination]);
      owned := owned + [file];
      affected := affected + {destination.directory};
    }

    method RemoveOwned(index: nat) returns (ok: bool)
      requires Valid() && index < |owned|
      modifies this
      ensures Valid() && strays == old(strays) && |owned| == |old(owned)|
      ensures forall i :: 0 <= i < |owned| && i != index ==> owned[i] == old(owned)[i]
      ensures owned[index].path == old(owned)[index].path && affected <= old(affected) + {owned[index].path.directory}
      ensures ok ==> !owned[index].present && failed == old(failed) && unclean == old(unclean)
      ensures ok && old(owned)[index].present ==> files == old(files) - {owned[index].path}
      ensures ok && !old(owned)[index].present ==> files == old(files)
      ensures old(Forward()) && ok ==> Forward()
      ensures NoneNew(old(files), files)
      ensures !ok ==> failed && unclean && owned[index].path in stuck
      ensures old(failed) ==> failed
      ensures old(unclean) ==> unclean
      ensures old(stuck) <= stuck
    {
      hide Covered, Existing;
      if !owned[index].present {
        return true;
      }
      OwnedExists(owned, index);
      var file := owned[index].(open := false);
      OneChanged(owned, index, file);
      FlagChanged(before, files, owned, strays, index, file);
      owned := owned[index := file];
      affected := affected + {file.path.directory};
      ghost var closed := owned;
      ok := Remove(file.path);
      if ok {
        owned := owned[index := file.(present := false)];
        OneChanged(closed, index, file.(present := false));
        if old(Forward()) {
          FileGoneForward(old(files), closed, index);
        }
      }
      FileGone(before, old(files), files, closed, owned, strays, index);
    }

    method Sync(directory: nat) returns (ok: bool)
      requires Valid()
      modifies this`dirty, this`affected, this`failed, this`unsynced
      ensures Valid() && (old(failed) ==> failed)
      ensures ok ==>
                affected == old(affected) - {directory} && dirty == old(dirty) - {directory} && failed == old(failed)
      ensures !ok ==> affected == old(affected) && dirty == old(dirty) && failed
      ensures unsynced == old(unsynced) + if ok then {} else {directory}
    {
      hide Covered, Existing;
      ok := *;
      if ok {
        dirty := dirty - {directory};
        affected := affected - {directory};
      } else {
        failed, unsynced := true, unsynced + {directory};
      }
    }

    /** The newest file goes first, and a failure does not stop the rest. */
    method RemoveAll() returns (incomplete: bool)
      requires Valid()
      modifies this
      ensures Valid() && strays == old(strays) && (old(failed) ==> failed) && NoneNew(old(files), files)
      ensures if incomplete then unclean else Existing(owned) == {} && unclean == old(unclean)
      // a failure does not stop the rest
      ensures Existing(owned) <= stuck
    {
      hide Covered, Valid;
      incomplete := false;
      var index := |owned|;
      while index > 0
        invariant Valid() && strays == old(strays) && 0 <= index <= |owned|
        invariant if incomplete then unclean
                  else unclean == old(unclean) && forall i :: index <= i < |owned| ==> !owned[i].present
        invariant (old(failed) ==> failed) && NoneNew(old(files), files)
        invariant forall i :: index <= i < |owned| && owned[i].present ==> owned[i].path in stuck
      {
        index := index - 1;
        var ok := RemoveOwned(index);
        if !ok {
          incomplete := true;
        }
      }
      if !incomplete {
        NothingExists(owned);
      }
    }

    method Rollback() returns (incomplete: bool)
      requires Valid()
      modifies this
      ensures Valid() && strays == old(strays) && (old(failed) ==> failed) && NoneNew(old(files), files)
      ensures if incomplete then unclean else Existing(owned) == {} && affected == {} && unclean == old(unclean)
      ensures Existing(owned) <= stuck && affected <= unsynced
    {
      hide Covered, Existing;
      incomplete := RemoveAll();
      for i := 0 to |directories|
        invariant Valid() && strays == old(strays) && (old(failed) ==> failed) && NoneNew(old(files), files)
        invariant if incomplete then unclean else
                    && Existing(owned) == {} && unclean == old(unclean)
                    && forall j :: 0 <= j < i ==> directories[j] !in affected
        invariant Existing(owned) <= stuck
        invariant forall j :: 0 <= j < i ==> directories[j] in affected ==> directories[j] in unsynced
      {
        if directories[i] !in directories[..i] && directories[i] in affected {
          var ok := Sync(directories[i]);
          if !ok {
            incomplete, unclean := true, true;
          }
        }
      }
    }

    method Fail(failure: Failure) returns (r: Outcome)
      requires Valid() && failed && !unclean
      modifies this
      ensures Valid() && strays == old(strays) && failed
      ensures r == if unclean then RollbackIncomplete else Primary(failure)
      ensures !unclean ==> TakenBack(old(files))
      ensures Existing(owned) <= stuck && affected <= unsynced
    {
      hide Covered, Existing;
      var incomplete := Rollback();
      r := if incomplete then RollbackIncomplete else Primary(failure);
      if !incomplete {
        AllGone(before, files, owned, strays, old(files));
        NothingTraced(dirty, owned);
      }
    }

    method CleanupFailure() returns (r: Outcome)
      requires Valid() && failed && unclean
      modifies this
      ensures Valid() && strays == old(strays) && failed && unclean && r == RollbackIncomplete
      ensures Existing(owned) <= stuck && affected <= unsynced
    {
      hide Covered, Existing;
      var incomplete := Rollback();
      r := RollbackIncomplete;
    }

    /** Everything is as it was and safe, but for a link that was made although it reported an error; that one is
        still there, as it was made. */
    ghost predicate TakenBack(reached: Files)
      reads this
    {
      && dirty == {} && strays <= reached.Keys && (linkedAnyway <==> strays != {})
      && files == before + map p | p in strays :: reached[p]
    }

    /** A primary error was returned: all is as before, unless the link to `path` was made although it reported an
        error. */
    ghost predicate Undone(failure: Failure, path: Path, file: File)
      reads this
    {
      && dirty == {}
      && if linkedAnyway then failure == PublishFailed && path !in before && files == before[path := file]
         else files == before
    }

    lemma AllTakenBack(reached: Files, failure: Failure, path: Path, file: File)
      requires TakenBack(reached) && strays == {}
      ensures Undone(failure, path, file)
    {
    }

    lemma PublicationTakenBack(reached: Files, path: Path, file: File)
      requires TakenBack(reached) && strays == (if linkedAnyway then {path} else {})
      requires linkedAnyway ==> path !in before && path in reached && reached[path] == file
      ensures Undone(PublishFailed, path, file)
    {
    }

    /** The first phase: both halves as temporary files, then the public half under its name. */
    method PublishPublic(key: nat, privatePath: Path, publicPath: Path)
      returns (r: Result<nat, Outcome>, ghost t: Path)
      requires Forward() && owned == [] && files == before && affected == {} && !failed && !unclean
      requires privatePath.directory in directories && publicPath.directory in directories
      modifies this
      ensures Valid()
      ensures r.Err? ==>
                && r.error != Generated && failed && (r.error == RollbackIncomplete <==> unclean)
                && (!unclean ==> Undone(r.error.failure, publicPath, File(PublicHalf(key), PUBLIC_MODE)))
                && Existing(owned) <= stuck && affected <= unsynced && strays <= {publicPath}
      ensures r.Ok? ==>
                && Forward() && !failed && !unclean && r.value < |owned| && owned[r.value].present
                && owned[r.value].path == t
                && t !in before && publicPath !in before && t != publicPath && t.directory == privatePath.directory
                && affected <= {privatePath.directory}
                && files == before[t := File(PrivateHalf(key), PRIVATE_MODE)]
                                  [publicPath := File(PublicHalf(key), PUBLIC_MODE)]
    {
      hide Covered, Existing, TakenBack, Undone, Traced;
      ghost var half := File(PublicHalf(key), PUBLIC_MODE);
      t := privatePath;
      var private := Prepare(privatePath, PrivateHalf(key), PRIVATE_MODE);
      if private.Err? {
        ghost var reached := files;
        var outcome := Fail(private.error);
        if outcome.Primary? {
          AllTakenBack(reached, private.error, publicPath, half);
        }
        return Err(outcome), t;
      }
      t := owned[private.value].path;
      ghost var first := files;
      var public := Prepare(publicPath, PublicHalf(key), PUBLIC_MODE);
      if public.Err? {
        ghost var reached := files;
        var outcome := Fail(public.error);
        if outcome.Primary? {
          AllTakenBack(reached, public.error, publicPath, half);
        }
        return Err(outcome), t;
      }
      assert owned[private.value].path == t;
      ghost var u := owned[public.value].path;
      var published := Publish(public.value, publicPath);
      if !published {
        ghost var reached := files;
        var outcome := Fail(PublishFailed);
        if outcome.Primary? {
          PublicationTakenBack(reached, publicPath, half);
        }
        return Err(outcome), t;
      }
      assert owned[private.value].path == t && owned[public.value].path == u;
      var removed := RemoveOwned(public.value);
      if !removed {
        var outcome := CleanupFailure();
        return Err(outcome), t;
      }
      var synced := Sync(publicPath.directory);
      if !synced {
        ghost var reached := files;
        var outcome := Fail(DirectorySyncFailed);
        if outcome.Primary? {
          AllTakenBack(reached, DirectorySyncFailed, publicPath, half);
        }
        return Err(outcome), t;
      }
      r := Ok(private.value);
    }

    method Lstat(path: Path) returns (r: Option<Failure>)
      modifies this`failed
      ensures r == None <==> path !in files && failed == old(failed) && r != Some(InspectFailed)
      ensures r == Some(Exists) ==> path in files && failed == old(failed)
      ensures r.Some? && r != Some(Exists) ==> r == Some(InspectFailed) && failed
      ensures old(failed) ==> failed
    {
      var ok: bool := *;
      if !ok {
        failed := true;
        return Some(InspectFailed);
      }
      r := if path in files then Some(Exists) else None;
    }

    /** The second phase: the private half under its name. */
    method PublishPrivate(temporary: nat, privatePath: Path, publicPath: Path, ghost t: Path, ghost private: File,
                          ghost public: File)
      returns (r: Outcome)
      requires Forward() && !failed && !unclean && temporary < |owned| && owned[temporary].present
      requires owned[temporary].path == t
      requires privatePath.directory in directories && t.directory == privatePath.directory
      requires affected <= {privatePath.directory}
      requires t !in before && publicPath !in before && t != publicPath
      requires files == before[t := private][publicPath := public]
      modifies this
      ensures Valid()
      ensures r == Generated <==> !failed
      ensures r == RollbackIncomplete <==> unclean
      ensures r.Primary? ==> Undone(r.failure, privatePath, private)
      ensures r == RollbackIncomplete ==>
                Existing(owned) <= stuck && affected <= unsynced && strays <= {privatePath}
      ensures r == Generated ==>
                && privatePath !in before && files == before[publicPath := public][privatePath := private]
                && dirty == {} && strays == {}
    {
      hide Covered, Existing, TakenBack, Undone, Traced;
      ghost var reached;
      var published := Publish(temporary, privatePath);
      if !published {
        reached := files;
        r := Fail(PublishFailed);
        if r.Primary? {
          PublicationTakenBack(reached, privatePath, private);
        }
        return;
      }
      var removed := RemoveOwned(temporary);
      if !removed {
        r := CleanupFailure();
        return;
      }
      var synced := Sync(privatePath.directory);
      if !synced {
        reached := files;
        r := Fail(DirectorySyncFailed);
        if r.Primary? {
          AllTakenBack(reached, DirectorySyncFailed, privatePath, private);
        }
        return;
      }
      TemporaryGone(before, files, t, privatePath, publicPath, private, public);
      r := Generated;
    }

    /** generateKeyPair. Exactly when every operation works is the pair published, exactly when taking
        something back fails is the rollback incomplete, and in between nothing has changed. */
    method Generate(key: nat, privatePath: Path, publicPath: Path) returns (r: Outcome)
      requires Forward() && owned == [] && files == before && affected == dirty == {} && !failed && !unclean
      requires directories == [publicPath.directory, privatePath.directory]
      modifies this
      ensures r == Generated <==>
        privatePath != publicPath && privatePath !in before && publicPath !in before && !failed
      ensures r == RollbackIncomplete <==> unclean
      // after a primary error nothing is left but the half whose link was made although it reported an error
      ensures r.Primary? ==>
                || Undone(r.failure, publicPath, File(PublicHalf(key), PUBLIC_MODE))
                || Undone(r.failure, privatePath, File(PrivateHalf(key), PRIVATE_MODE))
      ensures r.Primary? ==> dirty == {} && (files == before <==> !linkedAnyway)
      // what an incomplete rollback leaves is what could not be removed or synced; nothing else was given up
      ensures r == RollbackIncomplete ==>
                && affected <= unsynced && strays <= {publicPath, privatePath}
                && forall p :: p in files ==> p in before || p in stuck || (linkedAnyway && p in strays)
      // a key that is already there is noticed before anything is created
      ensures privatePath == publicPath || privatePath in before || publicPath in before ==>
                && r.Primary? && (r.failure == SamePath || r.failure == Exists || r.failure == InspectFailed)
                && owned == []
      // 0644 and 0600
      ensures r == Generated ==>
                && files == before[publicPath := File(PublicHalf(key), 420)][privatePath := File(PrivateHalf(key), 384)]
                && dirty == {} && strays == {}
      ensures forall p :: p in before ==> p in files && files[p] == before[p]
    {
      hide Covered, Existing;
      if privatePath == publicPath {
        return Primary(SamePath);
      }
      var failure := Lstat(privatePath);
      if failure.None? {
        failure := Lstat(publicPath);
      }
      if failure.Some? {
        return Primary(failure.value);
      }
      var drawn: bool := *;
      if !drawn {
        failed := true;
        return Primary(KeyFailed);
      }
      var temporary;
      ghost var t;
      temporary, t := PublishPublic(key, privatePath, publicPath);
      if temporary.Err? {
        r := temporary.error;
      } else {
        r := PublishPrivate(temporary.value, privatePath, publicPath, t, File(PrivateHalf(key), PRIVATE_MODE),
                            File(PublicHalf(key), PUBLIC_MODE));
      }
      BeforeIsThere();
      if r == RollbackIncomplete {
        LeftOver();
      }
    }

    lemma LeftOver()
      requires Valid() && Existing(owned) <= stuck
      ensures forall p :: p in files ==> p in before || p in stuck || (linkedAnyway && p in strays)
    {
      hide Existing;
    }

    lemma BeforeIsThere()
      requires Valid()
      ensures forall p :: p in before ==> p in files && files[p] == before[p]
    {
    }
  }

  lemma TemporaryGone(before: Files, files: Files, t: Path, privatePath: Path, publicPath: Path, private: File,
                      public: File)
    requires t !in before && t != publicPath && privatePath !in before[t := private][publicPath := public]
    requires files == before[t := private][publicPath := public][privatePath := private] - {t}
    ensures privatePath !in before && files == before[publicPath := public][privatePath := private]
  {
  }

  lemma AllGone(before: Files, files: Files, owned: seq<Owned>, strays: set<Path>, reached: Files)
    requires Covered(before, files, owned, strays) && Existing(owned) == {} && NoneNew(reached, files)
    ensures strays <= reached.Keys && files == before + map p | p in strays :: reached[p]
  {
  }
}
