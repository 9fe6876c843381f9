/** The staging record of `src-tauri/src/staging_folders.rs`: what the file
    holds and how one process changes it. */
module Record {
  import opened Text
  import opened FileSystem

  /** One staging folder the app made, and the device it was made on. */
  datatype Made = Made(path: Names, device: Option<nat>)

  datatype Record = Record(root: Option<Path>, folders: seq<Made>)

  const NO_RECORD := Record(None, [])

  /** What a file holds: nothing there, bytes that do not parse, or a record. */
  datatype Content = Absent | Damaged | Holds(record: Record)

  /** The changes the program makes: `set_root`, `create` and `forget`. */
  datatype Change = SetRoot(root: Option<Path>) | Add(made: Made) | Forget(path: Names)

  /** `retain`: drop every folder at `path`. */
  function Without(folders: seq<Made>, path: Names): seq<Made> {
    if folders == [] then []
    else
      var last := |folders| - 1;
      Without(folders[..last], path) + (if folders[last].path == path then [] else [folders[last]])
  }

  /** Exactly the folders at `path` are dropped. */
  lemma {:induction false} WithoutIsExact(folders: seq<Made>, path: Names, made: Made)
    ensures made in Without(folders, path) <==> made in folders && made.path != path
    decreases |folders|
  {
    if folders != [] {
      WithoutIsExact(folders[..|folders| - 1], path, made);
      assert folders == folders[..|folders| - 1] + [folders[|folders| - 1]];
    }
  }

  function Changed(r: Record, c: Change): Record {
    match c
    case SetRoot(root) => r.(root := root)
    case Add(made) => r.(folders := r.folders + [made])
    case Forget(path) => r.(folders := Without(r.folders, path))
  }

  /** `read_locked`: an absent file is an empty record, a damaged one an error. */
  function Parsed(c: Content): Result<Record> {
    match c
    case Absent => Ok(NO_RECORD)
    case Damaged => Err("damaged")
    case Holds(r) => Ok(r)
  }

  // ----- The program's own form ---------------------------------------------

  /** Where a change may be cut short. */
  datatype Fault = NoFault | LockFails | WriteFails | RenameFails

  /** The record file as one process changes it, holding the lock throughout. */
  class RecordFile {
    var file: Content

    constructor (file: Content)
      ensures this.file == file
    {
      this.file := file;
    }

    method ReadLocked() returns (r: Result<Record>)
      ensures r == Parsed(file)
    {
      match file {
        case Absent => r := Ok(NO_RECORD);
        case Damaged => r := Err("damaged");
        case Holds(record) => r := Ok(record);
      }
    }

    /** `change`: all of it or none of it. */
    method ChangeRecord(change: Change, fault: Fault) returns (ok: bool)
      modifies this
      ensures ok <==> fault == NoFault && Parsed(old(file)).Ok?
      ensures file == if ok then Holds(Changed(Parsed(old(file)).value, change)) else old(file)
    {
      if fault == LockFails {
        return false;
      }
      var read := ReadLocked();
      if read.Err? {
        return false;
      }
      var record := read.value;
      match change {
        case SetRoot(root) => record := record.(root := root);
        case Add(made) => record := record.(folders := record.folders + [made]);
        case Forget(path) =>
          var kept := Retain(record.folders, path);
          record := record.(folders := kept);
      }
      if fault == WriteFails || fault == RenameFails {
        return false;
      }
      file := Holds(record);
      return true;
    }

    method Retain(folders: seq<Made>, path: Names) returns (kept: seq<Made>)
      ensures kept == Without(folders, path)
    {
      kept := [];
      var i := 0;
      while i < |folders|
        invariant i <= |folders|
        invariant kept == Without(folders[..i], path)
      {
        assert folders[..i + 1][..i] == folders[..i];
        if folders[i].path != path {
          kept := kept + [folders[i]];
        }
        i := i + 1;
      }
      assert folders[..i] == folders;
    }
  }
}
