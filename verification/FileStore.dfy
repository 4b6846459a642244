/** The state file of the updater: a value replaced atomically by writing a
    temporary file, renaming it over the state and syncing the directory. */
module FileStore {
  import opened Prelude

  /** The step of Save that reports an error, in the order of the code. */
  datatype SaveFault =
    | NoFault
    | MakeDirectory
    | SecureDirectory
    | CreateTemporary
    | SecureTemporary
    | Encode
    | SyncTemporary
    | CloseTemporary
    | Rename
    | SyncDirectory

  class FileStore<T> {
    var file: Option<T>          // None: the state file does not exist
    var temporaries: nat         // temporary files left in the directory

    constructor ()
      ensures file == None && temporaries == 0
    {
      file, temporaries := None, 0;
    }

    /** A missing file reads as the empty state. */
    method Load(empty: T, unreadable: bool) returns (r: Option<T>)
      ensures r == if file == None then Some(empty) else if unreadable then None else file
    {
      if file == None {
        return Some(empty);
      }
      if unreadable {
        return None;
      }
      r := file;
    }

    /** One call replaces the whole file or leaves it as it was; the only
        error that comes after the replacement is the one of the directory sync. */
    method Save(state: T, fault: SaveFault, leaked: bool) returns (ok: bool)
      modifies this
      ensures ok <==> fault == NoFault
      ensures file == if fault in {NoFault, SyncDirectory} then Some(state) else old(file)
      ensures temporaries == old(temporaries) +
                (if leaked && fault in {SecureTemporary, Encode, SyncTemporary, CloseTemporary, Rename} then 1 else 0)
    {
      if fault == MakeDirectory || fault == SecureDirectory || fault == CreateTemporary {
        return false;
      }
      temporaries := temporaries + 1;
      var temporary: Option<T> := None;
      ok := fault != SecureTemporary;
      if ok {
        temporary := Some(state);
        ok := fault != Encode && fault != SyncTemporary && fault != CloseTemporary;
      }
      if ok {
        if fault == Rename {
          ok := false;
        } else {
          // the rename consumes the temporary file
          file := temporary;
          temporaries := temporaries - 1;
          ok := fault != SyncDirectory;
          return;
        }
      }
      // the deferred removal of the temporary file; its own error is ignored
      if !leaked {
        temporaries := temporaries - 1;
      }
    }
  }
}
