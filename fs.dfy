/**
 * An abstract local filesystem: a map from path to contents. The map holds
 * the readable files, so a read fails only for a path it does not hold.
 * Rename and write failures that do not follow from the map (permissions, a
 * full disk, a missing parent directory) are decided by the caller through a
 * `fault` argument.
 */
module Fs {
  import opened Wrappers
  import opened Strings

  type Bytes = seq<bv8>

  datatype IoError = NotFound(path: string) | Fault(path: string)

  /** The files after `from` is renamed to `to` (os.Rename). */
  function Renamed(files: map<string, Bytes>, from: string, to: string): (r: map<string, Bytes>)
    requires from in files
  {
    (files - {from})[to := files[from]]
  }

  /** A rename moves the contents to the new name, drops the old one, and touches nothing else. */
  lemma RenamedMoves(files: map<string, Bytes>, from: string, to: string)
    requires from in files
    ensures to in Renamed(files, from, to) && Renamed(files, from, to)[to] == files[from]
    ensures from != to ==> from !in Renamed(files, from, to)
    ensures from == to ==> Renamed(files, from, to) == files
    ensures forall k :: k != from && k != to ==>
      (k in Renamed(files, from, to) <==> k in files) &&
      (k in files ==> Renamed(files, from, to)[k] == files[k])
  {
    if from == to {
      assert Renamed(files, from, to) == files;
    }
  }

  /**
   * How ioutil.WriteFile can end: it opens the file with O_CREATE|O_TRUNC and
   * then writes. The open can fail (permissions, a missing directory), leaving
   * the files alone; or a write can fail (a full disk) after `written` bytes,
   * leaving the truncated file with only that prefix of the data.
   */
  datatype WriteFault = NoFault | OpenFails | WriteFailsAfter(written: nat)

  /** The files after ioutil.WriteFile(path, data) ends as `fault` says. */
  function Written(files: map<string, Bytes>, path: string, data: Bytes, fault: WriteFault): map<string, Bytes> {
    match fault
    case NoFault => files[path := data]
    case OpenFails => files
    case WriteFailsAfter(k) => files[path := data[..if k < |data| then k else |data|]]
  }

  /**
   * A write without a fault stores the data at the path; a failed open
   * changes nothing; a failed write leaves a prefix of the data there. No
   * other path is ever touched.
   */
  lemma WrittenSpec(files: map<string, Bytes>, path: string, data: Bytes, fault: WriteFault)
    ensures var after := Written(files, path, data, fault);
      && (fault == NoFault ==> path in after && after[path] == data)
      && (fault == OpenFails ==> after == files)
      && (fault.WriteFailsAfter? ==> path in after && |after[path]| <= |data| && after[path] == data[..|after[path]|])
      && (forall k :: k != path ==> (k in after <==> k in files) && (k in files ==> after[k] == files[k]))
  {
  }

  class FileSystem {
    var files: map<string, Bytes>

    constructor (files: map<string, Bytes>)
      ensures this.files == files
    {
      this.files := files;
    }

    /** ioutil.ReadFile: fails when nothing is stored under the path. */
    function Read(path: string): (r: Result<Bytes, IoError>)
      reads this
      ensures r.Success? <==> path in files
      ensures r.Success? ==> r.value == files[path]
    {
      if path in files then Success(files[path]) else Failure(NotFound(path))
    }

    /** os.Rename: fails when the old name is absent or the environment refuses. */
    method Rename(from: string, to: string, fault: bool) returns (err: Option<IoError>)
      modifies this
      ensures err.None? <==> from in old(files) && !fault
      ensures err.Some? ==> err.value == if from in old(files) then Fault(from) else NotFound(from)
      ensures files == if err.None? then Renamed(old(files), from, to) else old(files)
    {
      if from !in files {
        return Some(NotFound(from));
      }
      if fault {
        return Some(Fault(from));
      }
      files := Renamed(files, from, to);
      return None;
    }

    /** ioutil.WriteFile: open (creating or truncating), then write; `fault` says where it stops. */
    method WriteFile(path: string, data: Bytes, fault: WriteFault) returns (err: Option<IoError>)
      modifies this
      ensures err.None? <==> fault == NoFault
      ensures err.Some? ==> err.value == Fault(path)
      ensures files == Written(old(files), path, data, fault)
    {
      match fault
      case NoFault =>
        files := files[path := data];
        return None;
      case OpenFails =>
        return Some(Fault(path));
      case WriteFailsAfter(k) =>
        var n := if k < |data| then k else |data|;
        files := files[path := data[..n]];
        return Some(Fault(path));
    }
  }

  /** filepath.Join of two elements, without the lexical cleaning Go applies afterwards. */
  function JoinPath(dir: string, name: string): (r: string)
    ensures dir != "" ==> HasPrefix(r, dir)
    ensures dir != "" && name != "" ==> r == dir + "/" + name
  {
    if dir == "" then name else if name == "" then dir else dir + "/" + name
  }

  /**
   * The `~/` expansion the core repeats for every local path: a path starting
   * with `~/` is joined to the home directory (None when it cannot be found);
   * any other path is used verbatim.
   */
  function ExpandHome(path: string, home: Option<string>): (r: Option<string>)
    ensures r.None? <==> HasPrefix(path, "~/") && home.None?
    ensures !HasPrefix(path, "~/") ==> r == Some(path)
  {
    if HasPrefix(path, "~/") then
      match home
      case None => None
      case Some(h) => Some(JoinPath(h, path[2..]))
    else Some(path)
  }

  /** A `~/` path resolves under the home directory, whatever follows the prefix. */
  lemma ExpandHomeJoins(rest: string, home: string)
    ensures ExpandHome("~/" + rest, Some(home)) == Some(JoinPath(home, rest))
  {
    assert ("~/" + rest)[..2] == "~/";
    assert ("~/" + rest)[2..] == rest;
  }
}
