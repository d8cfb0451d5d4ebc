/**
 * An abstract filesystem. It keeps a log of the calls the handlers make and
 * takes every outcome from an oracle that may depend on all earlier calls,
 * so a model of the library's real behaviour is one particular oracle.
 */
module FsModel {
  import opened Wrappers
  import opened Collaborators

  /** The type of a directory entry or of the target of `metadata`. */
  datatype FileType = File | Dir | Symlink | Other

  /** What `tokio::fs::metadata` reports; only its type is used. */
  datatype FileMetadata = FileMetadata(fileType: FileType) {
    predicate IsDir() { fileType == Dir }
  }

  /** An OS file name: either valid Unicode text or raw bytes that are not. */
  datatype OsName = Unicode(text: string) | NonUnicode(bytes: seq<bv8>)

  /** `OsString::into_string`: the text, or the name itself back as the error. */
  function IntoString(n: OsName): (r: Result<string, OsName>)
    ensures r.Success? <==> n.Unicode?
    ensures r.Success? ==> r.value == n.text
    ensures r.Failure? ==> r.error == n
  {
    match n
    case Unicode(t) => Success(t)
    case NonUnicode(_) => Failure(n)
  }

  /** `OsStr::to_str`: the text when the name is valid Unicode. */
  function ToStr(n: OsName): (r: Option<string>)
    ensures r.Some? <==> n.Unicode?
    ensures r.Some? ==> r.value == n.text
  {
    match n
    case Unicode(t) => Some(t)
    case NonUnicode(_) => None
  }

  /** A directory entry: the outcome of its `file_type()` lookup and its name. */
  datatype DirEntry = DirEntry(fileType: Result<FileType, IoError>, fileName: OsName)

  /** One result of `ReadDir::next_entry`: `Ok(Some(entry))`, `Ok(None)` or `Err`. */
  datatype NextEntry = Entry(entry: DirEntry) | EndOfStream | EnumError(io: IoError)

  /**
   * The enumeration that `read_dir` hands back, as the finite sequence of
   * answers `next_entry` gives; past its end every answer is `Ok(None)`.
   */
  type DirStream = seq<NextEntry>

  /** A filesystem call made by a handler. */
  datatype FsOp =
    | ReadDir(path: Path)
    | Metadata(path: Path)
    | Rename(source: Path, dest: Path)
    | CreateDirAll(path: Path)

  /** A handler's answer together with the filesystem calls it made, in order. */
  datatype Run<T> = Run(result: Result<T, HandlerError>, calls: seq<FsOp>)

  /** Outcomes of the filesystem calls, given the calls made before. */
  datatype Oracle = Oracle(
    readDir: (seq<FsOp>, Path) -> Result<DirStream, IoError>,
    metadata: (seq<FsOp>, Path) -> Result<FileMetadata, IoError>,
    rename: (seq<FsOp>, Path, Path) -> Result<(), IoError>,
    createDirAll: (seq<FsOp>, Path) -> Result<(), IoError>)

  /**
   * The `tokio::fs` functions `read_dir`, `metadata`, `rename` and
   * `create_dir_all`; each call is appended to `log`. Calls on the stream
   * and entries that `read_dir` returns are not logged.
   */
  class FileSystem {
    var log: seq<FsOp>
    const oracle: Oracle

    constructor (oracle: Oracle)
      ensures this.oracle == oracle && log == []
    {
      this.oracle := oracle;
      log := [];
    }

    /** `tokio::fs::read_dir(path)`. */
    method ReadDir(path: Path) returns (r: Result<DirStream, IoError>)
      modifies this
      ensures log == old(log) + [FsOp.ReadDir(path)]
      ensures r == oracle.readDir(old(log), path)
    {
      r := oracle.readDir(log, path);
      log := log + [FsOp.ReadDir(path)];
    }

    /** `tokio::fs::metadata(path)`. */
    method Metadata(path: Path) returns (r: Result<FileMetadata, IoError>)
      modifies this
      ensures log == old(log) + [FsOp.Metadata(path)]
      ensures r == oracle.metadata(old(log), path)
    {
      r := oracle.metadata(log, path);
      log := log + [FsOp.Metadata(path)];
    }

    /** `tokio::fs::rename(source, dest)`. */
    method Rename(source: Path, dest: Path) returns (r: Result<(), IoError>)
      modifies this
      ensures log == old(log) + [FsOp.Rename(source, dest)]
      ensures r == oracle.rename(old(log), source, dest)
    {
      r := oracle.rename(log, source, dest);
      log := log + [FsOp.Rename(source, dest)];
    }

    /** `tokio::fs::create_dir_all(path)`. */
    method CreateDirAll(path: Path) returns (r: Result<(), IoError>)
      modifies this
      ensures log == old(log) + [FsOp.CreateDirAll(path)]
      ensures r == oracle.createDirAll(old(log), path)
    {
      r := oracle.createDirAll(log, path);
      log := log + [FsOp.CreateDirAll(path)];
    }
  }
}
