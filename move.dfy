/**
 * The `move` handler: the read-only guard, then the claims, then both
 * paths resolved under the caller's id, then `metadata` of the source,
 * then `rename`, and a message chosen from the metadata read before it.
 */
module Move {
  import opened Wrappers
  import opened Collaborators
  import opened FsModel

  /** The JSON body `{ from, to }`. */
  datatype SourceAndDest = SourceAndDest(from: string, to: string)

  const DirectoryMoved := "Directory successfully moved"
  const FileMoved := "File successfully moved"

  /** The success message for a source with metadata `md`. */
  function MovedMessage(md: FileMetadata): (msg: string)
    ensures msg == DirectoryMoved <==> md.IsDir()
    ensures msg == FileMoved <==> !md.IsDir()
  {
    if md.IsDir() then DirectoryMoved else FileMoved
  }

  /** What `move` answers and which filesystem calls it makes. */
  function MoveSpec(config: Config, jwt: Jwt, extractClaims: ExtractClaims, resolve: ResolvePath,
                    guard: ReadOnlyGuard, params: SourceAndDest,
                    oracle: Oracle, history: seq<FsOp>): (run: Run<string>)
  {
    var g := guard(config);
    if g.Failure? then Run(Failure(ReadOnlyRefused(g.error)), [])
    else
      var claims := extractClaims(jwt.token, config.serverSecret);
      if claims.Failure? then Run(Failure(ClaimsRejected(claims.error)), [])
      else
        var source := resolve(claims.value.id, params.from);
        if source.Failure? then Run(Failure(PathRejected(source.error)), [])
        else
          var dest := resolve(claims.value.id, params.to);
          if dest.Failure? then Run(Failure(PathRejected(dest.error)), [])
          else
            var md := oracle.metadata(history, source.value);
            if md.Failure? then Run(Failure(FsFailed(md.error)), [FsOp.Metadata(source.value)])
            else
              var calls := [FsOp.Metadata(source.value), FsOp.Rename(source.value, dest.value)];
              var renamed := oracle.rename(history + [FsOp.Metadata(source.value)], source.value, dest.value);
              if renamed.Failure? then Run(Failure(FsFailed(renamed.error)), calls)
              else Run(Success(MovedMessage(md.value)), calls)
  }

  /** The `move` handler on the filesystem `fs`. */
  method MoveHandler(fs: FileSystem, config: Config, jwt: Jwt, extractClaims: ExtractClaims,
                     resolve: ResolvePath, guard: ReadOnlyGuard, params: SourceAndDest)
    returns (r: Result<string, HandlerError>)
    modifies fs
    ensures var run := MoveSpec(config, jwt, extractClaims, resolve, guard, params, fs.oracle, old(fs.log));
      r == run.result && fs.log == old(fs.log) + run.calls
  {
    var g := guard(config);
    if g.Failure? {
      return Failure(ReadOnlyRefused(g.error));
    }
    var claims := extractClaims(jwt.token, config.serverSecret);
    if claims.Failure? {
      return Failure(ClaimsRejected(claims.error));
    }
    var sourcePath := resolve(claims.value.id, params.from);
    if sourcePath.Failure? {
      return Failure(PathRejected(sourcePath.error));
    }
    var destinationPath := resolve(claims.value.id, params.to);
    if destinationPath.Failure? {
      return Failure(PathRejected(destinationPath.error));
    }
    var metadata := fs.Metadata(sourcePath.value);
    if metadata.Failure? {
      return Failure(FsFailed(metadata.error));
    }
    var renamed := fs.Rename(sourcePath.value, destinationPath.value);
    if renamed.Failure? {
      return Failure(FsFailed(renamed.error));
    }
    return Success(MovedMessage(metadata.value));
  }

  /**
   * A failing guard decides the answer before anything else: the claims
   * extractor and the resolver are not consulted and no file is touched.
   */
  lemma MoveGuardFirst(config: Config, jwt: Jwt, extractClaims: ExtractClaims, extractClaims': ExtractClaims,
                       resolve: ResolvePath, resolve': ResolvePath, guard: ReadOnlyGuard,
                       params: SourceAndDest, oracle: Oracle, history: seq<FsOp>)
    requires guard(config).Failure?
    ensures MoveSpec(config, jwt, extractClaims, resolve, guard, params, oracle, history)
         == MoveSpec(config, jwt, extractClaims', resolve', guard, params, oracle, history)
         == Run(Failure(ReadOnlyRefused(guard(config).error)), [])
  {
  }

  /** Failed claims are answered as such; no path is resolved and no file is touched. */
  lemma MoveClaimsFailure(config: Config, jwt: Jwt, extractClaims: ExtractClaims,
                          resolve: ResolvePath, resolve': ResolvePath, guard: ReadOnlyGuard,
                          params: SourceAndDest, oracle: Oracle, history: seq<FsOp>)
    requires guard(config).Success?
    requires extractClaims(jwt.token, config.serverSecret).Failure?
    ensures MoveSpec(config, jwt, extractClaims, resolve, guard, params, oracle, history)
         == MoveSpec(config, jwt, extractClaims, resolve', guard, params, oracle, history)
         == Run(Failure(ClaimsRejected(extractClaims(jwt.token, config.serverSecret).error)), [])
  {
  }

  /**
   * Both paths are resolved under the caller's id, `from` first: if either
   * fails, the first failure is the answer and no file is touched.
   */
  lemma MoveResolveFailure(config: Config, jwt: Jwt, extractClaims: ExtractClaims,
                           resolve: ResolvePath, guard: ReadOnlyGuard,
                           params: SourceAndDest, oracle: Oracle, history: seq<FsOp>)
    requires guard(config).Success?
    requires extractClaims(jwt.token, config.serverSecret).Success?
    requires var id := extractClaims(jwt.token, config.serverSecret).value.id;
      resolve(id, params.from).Failure? || resolve(id, params.to).Failure?
    ensures var id := extractClaims(jwt.token, config.serverSecret).value.id;
      var source, dest := resolve(id, params.from), resolve(id, params.to);
      MoveSpec(config, jwt, extractClaims, resolve, guard, params, oracle, history)
      == Run(Failure(PathRejected(if source.Failure? then source.error else dest.error)), [])
  {
  }

  /** A failed `metadata` is the answer and `rename` is never attempted. */
  lemma MoveMetadataFailure(config: Config, jwt: Jwt, extractClaims: ExtractClaims,
                            resolve: ResolvePath, guard: ReadOnlyGuard,
                            params: SourceAndDest, oracle: Oracle, history: seq<FsOp>)
    requires guard(config).Success?
    requires extractClaims(jwt.token, config.serverSecret).Success?
    requires var id := extractClaims(jwt.token, config.serverSecret).value.id;
      resolve(id, params.from).Success? && resolve(id, params.to).Success?
      && oracle.metadata(history, resolve(id, params.from).value).Failure?
    ensures var id := extractClaims(jwt.token, config.serverSecret).value.id;
      var source := resolve(id, params.from).value;
      var run := MoveSpec(config, jwt, extractClaims, resolve, guard, params, oracle, history);
      run == Run(Failure(FsFailed(oracle.metadata(history, source).error)), [FsOp.Metadata(source)])
  {
  }

  /**
   * A successful `move` passed every step, made exactly `metadata` then
   * `rename` on the paths resolved under the caller's id, and its message
   * says "Directory" exactly when the source was a directory before the
   * rename.
   */
  lemma MoveSuccess(config: Config, jwt: Jwt, extractClaims: ExtractClaims,
                    resolve: ResolvePath, guard: ReadOnlyGuard,
                    params: SourceAndDest, oracle: Oracle, history: seq<FsOp>)
    requires MoveSpec(config, jwt, extractClaims, resolve, guard, params, oracle, history).result.Success?
    ensures guard(config).Success? && extractClaims(jwt.token, config.serverSecret).Success?
    ensures var id := extractClaims(jwt.token, config.serverSecret).value.id;
      && resolve(id, params.from).Success? && resolve(id, params.to).Success?
      && var source, dest := resolve(id, params.from).value, resolve(id, params.to).value;
      && var run := MoveSpec(config, jwt, extractClaims, resolve, guard, params, oracle, history);
      && run.calls == [FsOp.Metadata(source), FsOp.Rename(source, dest)]
      && oracle.metadata(history, source).Success?
      && oracle.rename(history + [FsOp.Metadata(source)], source, dest).Success?
      && (run.result.value == DirectoryMoved <==> oracle.metadata(history, source).value.IsDir())
      && (run.result.value == FileMoved <==> !oracle.metadata(history, source).value.IsDir())
  {
  }

  /** A failed `rename` is an error after both calls, never a success message. */
  lemma MoveRenameFailure(config: Config, jwt: Jwt, extractClaims: ExtractClaims,
                          resolve: ResolvePath, guard: ReadOnlyGuard,
                          params: SourceAndDest, oracle: Oracle, history: seq<FsOp>)
    requires guard(config).Success?
    requires extractClaims(jwt.token, config.serverSecret).Success?
    requires var id := extractClaims(jwt.token, config.serverSecret).value.id;
      && resolve(id, params.from).Success? && resolve(id, params.to).Success?
      && var source, dest := resolve(id, params.from).value, resolve(id, params.to).value;
      && oracle.metadata(history, source).Success?
      && oracle.rename(history + [FsOp.Metadata(source)], source, dest).Failure?
    ensures var id := extractClaims(jwt.token, config.serverSecret).value.id;
      var source, dest := resolve(id, params.from).value, resolve(id, params.to).value;
      MoveSpec(config, jwt, extractClaims, resolve, guard, params, oracle, history)
      == Run(Failure(FsFailed(oracle.rename(history + [FsOp.Metadata(source)], source, dest).error)),
             [FsOp.Metadata(source), FsOp.Rename(source, dest)])
  {
  }

  /** No `rename` is ever made unless `metadata` of the same source came just before it. */
  lemma MoveRenameAfterMetadata(config: Config, jwt: Jwt, extractClaims: ExtractClaims,
                                resolve: ResolvePath, guard: ReadOnlyGuard,
                                params: SourceAndDest, oracle: Oracle, history: seq<FsOp>, k: nat)
    requires var calls := MoveSpec(config, jwt, extractClaims, resolve, guard, params, oracle, history).calls;
      k < |calls| && calls[k].Rename?
    ensures var calls := MoveSpec(config, jwt, extractClaims, resolve, guard, params, oracle, history).calls;
      k == 1 && calls[0] == FsOp.Metadata(calls[k].source)
      && oracle.metadata(history, calls[k].source).Success?
  {
  }
}
