/**
 * The `list` handler: extract the claims, resolve the query path, open the
 * directory, collect its entries until the enumeration stops, then split
 * them in order into regular files and everything else.
 */
module List {
  import opened Wrappers
  import opened Collaborators
  import opened FsModel

  /** The JSON response: file names and other entry names, in enumeration order. */
  datatype Listing = Listing(files: seq<string>, dirs: seq<string>)

  // ---------------------------------------------------------------------
  // Collecting the entries

  /** The answer `next_entry` gives at position `i` of the enumeration. */
  function NextAt(stream: DirStream, i: nat): (n: NextEntry)
  {
    if i < |stream| then stream[i] else EndOfStream
  }

  /**
   * The entries the collection loop keeps: those answered before the first
   * answer that is not an entry, whether that is the end or an error.
   */
  function Collected(stream: DirStream): (r: seq<DirEntry>)
    ensures |r| <= |stream|
    ensures forall i :: 0 <= i < |r| ==> stream[i] == Entry(r[i])
    ensures |r| == |stream| || !stream[|r|].Entry?
  {
    if stream == [] || !stream[0].Entry? then []
    else [stream[0].entry] + Collected(stream[1..])
  }

  /** The two conditions in the contract of `Collected` determine its result. */
  lemma CollectedUnique(stream: DirStream, r: seq<DirEntry>)
    requires |r| <= |stream|
    requires forall i :: 0 <= i < |r| ==> stream[i] == Entry(r[i])
    requires |r| == |stream| || !stream[|r|].Entry?
    ensures r == Collected(stream)
  {
  }

  /** Whatever follows an end of stream or an enumeration error is never looked at. */
  lemma CollectedIgnoresRest(stream: DirStream, i: nat, rest: DirStream)
    requires i < |stream| && !stream[i].Entry?
    ensures Collected(stream + rest) == Collected(stream)
  {
    var c := Collected(stream);
    var s := stream + rest;
    assert forall k :: 0 <= k < |c| ==> s[k] == stream[k];
    assert |c| < |stream|;
    assert s[|c|] == stream[|c|];
    CollectedUnique(s, c);
  }

  /**
   * An enumeration error after some entries ends the collection silently:
   * exactly the entries before it are kept.
   */
  lemma {:induction false} EnumErrorTruncates(entries: seq<DirEntry>, e: IoError, rest: DirStream)
    ensures Collected(Entries(entries) + [EnumError(e)] + rest) == entries
  {
    var s := Entries(entries) + [EnumError(e)] + rest;
    assert forall k :: 0 <= k < |entries| ==> s[k] == Entry(entries[k]);
    assert s[|entries|] == EnumError(e);
    CollectedUnique(s, entries);
  }

  /** The stream that answers each of `entries` in turn. */
  function Entries(entries: seq<DirEntry>): (s: DirStream)
  {
    seq(|entries|, k requires 0 <= k < |entries| => Entry(entries[k]))
  }

  /** The collection loop: push entries while `next_entry` answers `Ok(Some(_))`. */
  method CollectEntries(stream: DirStream) returns (entries: seq<DirEntry>)
    ensures entries == Collected(stream)
  {
    entries := [];
    var i := 0;
    while true
      invariant i == |entries| <= |stream|
      invariant forall k :: 0 <= k < i ==> stream[k] == Entry(entries[k])
      decreases |stream| - i
    {
      var next := NextAt(stream, i);
      if next.Entry? {
        entries := entries + [next.entry];
        i := i + 1;
      } else {
        break;
      }
    }
    CollectedUnique(stream, entries);
  }

  // ---------------------------------------------------------------------
  // Splitting the entries

  /** The message of a failed name conversion: `to_str()` of the name, else a fixed text. */
  function ConversionMessage(name: OsName): (msg: string)
  {
    match ToStr(name)
    case Some(s) => s
    case None => "String conversion failed"
  }

  /**
   * A name that fails `into_string` also fails `to_str`, so the conversion
   * error always carries the fixed text.
   */
  lemma ConversionMessageIsFixed(name: OsName)
    requires IntoString(name).Failure?
    ensures ConversionMessage(IntoString(name).error) == "String conversion failed"
  {
  }

  /**
   * One pass of the split loop on one entry: look up its type, then convert
   * its name; the answer is whether it is a regular file, and its name.
   */
  function Classify(e: DirEntry): (r: Result<(bool, string), HandlerError>)
  {
    match e.fileType
    case Failure(io) => Failure(InternalServerError(FromIo(io)))
    case Success(ft) =>
      match IntoString(e.fileName)
      case Failure(err) => Failure(InternalServerError(Message(ConversionMessage(err))))
      case Success(name) => Success((ft == File, name))
  }

  /** The result of the split loop after it has seen `entries`. */
  function Partition(entries: seq<DirEntry>): (r: Result<Listing, HandlerError>)
    decreases |entries|
  {
    if entries == [] then Success(Listing([], []))
    else
      match Partition(entries[..|entries| - 1])
      case Failure(err) => Failure(err)
      case Success(l) =>
        match Classify(entries[|entries| - 1])
        case Failure(err) => Failure(err)
        case Success(c) =>
          if c.0 then Success(Listing(l.files + [c.1], l.dirs))
          else Success(Listing(l.files, l.dirs + [c.1]))
  }

  /** The split loop, returning early on the first entry it cannot classify. */
  method PartitionEntries(entries: seq<DirEntry>) returns (r: Result<Listing, HandlerError>)
    ensures r == Partition(entries)
  {
    var files: seq<string> := [];
    var dirs: seq<string> := [];
    for i := 0 to |entries|
      invariant Partition(entries[..i]) == Success(Listing(files, dirs))
    {
      var entry := entries[i];
      assert entries[..i + 1][..i] == entries[..i];
      match entry.fileType
      case Failure(io) =>
        PrefixFailureStays(entries, i + 1);
        return Failure(InternalServerError(FromIo(io)));
      case Success(ft) =>
        var name := IntoString(entry.fileName);
        if ft == File {
          if name.Failure? {
            PrefixFailureStays(entries, i + 1);
            return Failure(InternalServerError(Message(ConversionMessage(name.error))));
          }
          files := files + [name.value];
        } else {
          if name.Failure? {
            PrefixFailureStays(entries, i + 1);
            return Failure(InternalServerError(Message(ConversionMessage(name.error))));
          }
          dirs := dirs + [name.value];
        }
    }
    assert entries[..|entries|] == entries;
    return Success(Listing(files, dirs));
  }

  // ---------------------------------------------------------------------
  // What the split means

  /** An entry the split loop can classify: its type is known and its name is text. */
  predicate Readable(e: DirEntry) {
    e.fileType.Success? && e.fileName.Unicode?
  }

  /** An entry whose type is a regular file. */
  predicate IsRegularFile(e: DirEntry) {
    e.fileType == Success(File)
  }

  /**
   * Reference definition of the two lists: the names of the readable
   * entries that are regular files (`wantFiles`) or are not, in order.
   */
  function Selected(entries: seq<DirEntry>, wantFiles: bool): (names: seq<string>)
  {
    if entries == [] then []
    else
      (if Readable(entries[0]) && IsRegularFile(entries[0]) == wantFiles
       then [entries[0].fileName.text] else [])
      + Selected(entries[1..], wantFiles)
  }

  /** The error the split loop reports for an entry it cannot classify. */
  function EntryError(e: DirEntry): (err: HandlerError)
    requires !Readable(e)
    ensures e.fileType.Failure? ==> err == InternalServerError(FromIo(e.fileType.error))
    ensures e.fileType.Success? ==> err == InternalServerError(Message("String conversion failed"))
  {
    match e.fileType
    case Failure(io) => InternalServerError(FromIo(io))
    case Success(_) => InternalServerError(Message(ConversionMessage(e.fileName)))
  }

  /**
   * One pass of the split loop classifies an entry exactly when it is
   * readable, as (is regular file, name); otherwise it fails with the
   * entry's error.
   */
  lemma ClassifyMeaning(e: DirEntry)
    ensures Classify(e).Success? <==> Readable(e)
    ensures Readable(e) ==> Classify(e).value == (IsRegularFile(e), e.fileName.text)
    ensures !Readable(e) ==> Classify(e) == Failure(EntryError(e))
  {
  }

  /** Selecting from a concatenation selects from each part: the lists keep enumeration order. */
  lemma {:induction false} SelectedAppend(a: seq<DirEntry>, b: seq<DirEntry>, wantFiles: bool)
    ensures Selected(a + b, wantFiles) == Selected(a, wantFiles) + Selected(b, wantFiles)
  {
    if a == [] {
      assert a + b == b;
    } else {
      assert (a + b)[1..] == a[1..] + b;
      SelectedAppend(a[1..], b, wantFiles);
    }
  }

  /** Once the split has failed on a prefix, the entries after it change nothing. */
  lemma {:induction false} PrefixFailureStays(entries: seq<DirEntry>, n: nat)
    requires n <= |entries|
    requires Partition(entries[..n]).Failure?
    ensures Partition(entries) == Partition(entries[..n])
    decreases |entries| - n
  {
    if n < |entries| {
      var m := entries[..n + 1];
      assert m[..|m| - 1] == entries[..n];
      PrefixFailureStays(entries, n + 1);
    } else {
      assert entries[..n] == entries;
    }
  }

  /**
   * The split succeeds exactly when every entry is readable, and then the
   * two lists are the reference selections.
   */
  lemma {:induction false} PartitionMeaning(entries: seq<DirEntry>)
    ensures Partition(entries).Success? <==> forall i :: 0 <= i < |entries| ==> Readable(entries[i])
    ensures Partition(entries).Success? ==>
      Partition(entries).value == Listing(Selected(entries, true), Selected(entries, false))
    decreases |entries|
  {
    if entries != [] {
      var n := |entries| - 1;
      var init, last := entries[..n], entries[n];
      assert entries == init + [last];
      PartitionMeaning(init);
      ClassifyMeaning(last);
      SelectedAppend(init, [last], true);
      SelectedAppend(init, [last], false);
      assert [last][1..] == [];
      if !Readable(last) {
        assert !(forall i :: 0 <= i < |entries| ==> Readable(entries[i]));
      }
      if Partition(init).Failure? {
        var j :| 0 <= j < |init| && !Readable(init[j]);
        assert !Readable(entries[j]);
      }
    }
  }

  /**
   * On failure the error is the one of the first unreadable entry; entries
   * after it are never looked at.
   */
  lemma {:induction false} PartitionFirstError(entries: seq<DirEntry>, i: nat)
    requires i < |entries| && !Readable(entries[i])
    requires forall j :: 0 <= j < i ==> Readable(entries[j])
    ensures Partition(entries) == Failure(EntryError(entries[i]))
  {
    var pre := entries[..i];
    assert forall j :: 0 <= j < |pre| ==> Readable(pre[j]);
    PartitionMeaning(pre);
    var m := entries[..i + 1];
    assert m[..|m| - 1] == pre;
    ClassifyMeaning(entries[i]);
    assert Partition(m) == Failure(EntryError(entries[i]));
    PrefixFailureStays(entries, i + 1);
  }

  /** A name that is not valid Unicode fails the whole split; it is never dropped. */
  lemma NonUnicodeNameFails(entries: seq<DirEntry>, i: nat)
    requires i < |entries| && entries[i].fileName.NonUnicode?
    ensures Partition(entries).Failure?
  {
    PartitionMeaning(entries);
  }

  /** A failed type lookup fails the whole split. */
  lemma FileTypeErrorFails(entries: seq<DirEntry>, i: nat)
    requires i < |entries| && entries[i].fileType.Failure?
    ensures Partition(entries).Failure?
  {
    PartitionMeaning(entries);
  }

  /** Every entry lands in exactly one of the two lists. */
  lemma {:induction false} SelectedCover(entries: seq<DirEntry>)
    requires forall i :: 0 <= i < |entries| ==> Readable(entries[i])
    ensures |Selected(entries, true)| + |Selected(entries, false)| == |entries|
  {
    if entries != [] {
      SelectedCover(entries[1..]);
    }
  }

  // ---------------------------------------------------------------------
  // The handler

  /** What `list` answers and which filesystem calls it makes. */
  function ListSpec(config: Config, jwt: Jwt, extractClaims: ExtractClaims,
                    resolve: (int, string) -> Path, query: string,
                    oracle: Oracle, history: seq<FsOp>): (run: Run<Listing>)
  {
    var claims := extractClaims(jwt.token, config.jwtSecret);
    if claims.Failure? then Run(Failure(ClaimsRejected(claims.error)), [])
    else
      var path := resolve(claims.value.id, query);
      var dir := oracle.readDir(history, path);
      if dir.Failure? then Run(Failure(InternalServerError(FromIo(dir.error))), [FsOp.ReadDir(path)])
      else Run(Partition(Collected(dir.value)), [FsOp.ReadDir(path)])
  }

  /** The `list` handler on the filesystem `fs`. */
  method ListHandler(fs: FileSystem, config: Config, jwt: Jwt, extractClaims: ExtractClaims,
                     resolve: (int, string) -> Path, query: string)
    returns (r: Result<Listing, HandlerError>)
    modifies fs
    ensures var run := ListSpec(config, jwt, extractClaims, resolve, query, fs.oracle, old(fs.log));
      r == run.result && fs.log == old(fs.log) + run.calls
  {
    var claims := extractClaims(jwt.token, config.jwtSecret);
    if claims.Failure? {
      return Failure(ClaimsRejected(claims.error));
    }
    var fullPath := resolve(claims.value.id, query);
    var dir := fs.ReadDir(fullPath);
    if dir.Failure? {
      return Failure(InternalServerError(FromIo(dir.error)));
    }
    var entries := CollectEntries(dir.value);
    r := PartitionEntries(entries);
  }

  /** A failed claims extraction is answered as such and touches no file. */
  lemma ListClaimsFailure(config: Config, jwt: Jwt, extractClaims: ExtractClaims,
                          resolve: (int, string) -> Path, query: string,
                          oracle: Oracle, history: seq<FsOp>)
    requires extractClaims(jwt.token, config.jwtSecret).Failure?
    ensures ListSpec(config, jwt, extractClaims, resolve, query, oracle, history)
         == Run(Failure(ClaimsRejected(extractClaims(jwt.token, config.jwtSecret).error)), [])
  {
  }

  /** A failed `read_dir` is an internal server error after that one call. */
  lemma ListReadDirFailure(config: Config, jwt: Jwt, extractClaims: ExtractClaims,
                           resolve: (int, string) -> Path, query: string,
                           oracle: Oracle, history: seq<FsOp>)
    requires extractClaims(jwt.token, config.jwtSecret).Success?
    requires oracle.readDir(history, resolve(extractClaims(jwt.token, config.jwtSecret).value.id, query)).Failure?
    ensures var path := resolve(extractClaims(jwt.token, config.jwtSecret).value.id, query);
      ListSpec(config, jwt, extractClaims, resolve, query, oracle, history)
      == Run(Failure(InternalServerError(FromIo(oracle.readDir(history, path).error))), [FsOp.ReadDir(path)])
  {
  }

  /**
   * A successful `list` made exactly one `read_dir` on the resolved path,
   * and its lists are the order-preserving selections of the collected
   * entries, which they cover between them.
   */
  lemma ListSuccess(config: Config, jwt: Jwt, extractClaims: ExtractClaims,
                    resolve: (int, string) -> Path, query: string,
                    oracle: Oracle, history: seq<FsOp>)
    requires ListSpec(config, jwt, extractClaims, resolve, query, oracle, history).result.Success?
    ensures extractClaims(jwt.token, config.jwtSecret).Success?
    ensures var path := resolve(extractClaims(jwt.token, config.jwtSecret).value.id, query);
      var run := ListSpec(config, jwt, extractClaims, resolve, query, oracle, history);
      && run.calls == [FsOp.ReadDir(path)]
      && oracle.readDir(history, path).Success?
      && var entries := Collected(oracle.readDir(history, path).value);
      && (forall i :: 0 <= i < |entries| ==> Readable(entries[i]))
      && run.result.value == Listing(Selected(entries, true), Selected(entries, false))
      && |run.result.value.files| + |run.result.value.dirs| == |entries|
  {
    var path := resolve(extractClaims(jwt.token, config.jwtSecret).value.id, query);
    var entries := Collected(oracle.readDir(history, path).value);
    PartitionMeaning(entries);
    SelectedCover(entries);
  }

  /**
   * When a collected entry cannot be classified, `list` fails with the error
   * of the first such entry.
   */
  lemma ListFailsOnFirstBadEntry(config: Config, jwt: Jwt, extractClaims: ExtractClaims,
                                 resolve: (int, string) -> Path, query: string,
                                 oracle: Oracle, history: seq<FsOp>, i: nat)
    requires extractClaims(jwt.token, config.jwtSecret).Success?
    requires oracle.readDir(history, resolve(extractClaims(jwt.token, config.jwtSecret).value.id, query)).Success?
    requires var entries := Collected(oracle.readDir(history, resolve(extractClaims(jwt.token, config.jwtSecret).value.id, query)).value);
      i < |entries| && !Readable(entries[i]) && forall j :: 0 <= j < i ==> Readable(entries[j])
    ensures var entries := Collected(oracle.readDir(history, resolve(extractClaims(jwt.token, config.jwtSecret).value.id, query)).value);
      ListSpec(config, jwt, extractClaims, resolve, query, oracle, history).result == Failure(EntryError(entries[i]))
  {
    var entries := Collected(oracle.readDir(history, resolve(extractClaims(jwt.token, config.jwtSecret).value.id, query)).value);
    PartitionFirstError(entries, i);
  }
}
