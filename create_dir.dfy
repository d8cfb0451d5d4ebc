/**
 * The `create_dir` handler: the claims, then the path resolved under the
 * caller's id, then `create_dir_all`, and a fixed message. It never
 * consults the read-only guard.
 */
module CreateDir {
  import opened Wrappers
  import opened Collaborators
  import opened FsModel

  const DirectoryCreated := "directory successfully created!"

  /** What `create_dir` answers and which filesystem calls it makes. */
  function CreateDirSpec(config: Config, jwt: Jwt, extractClaims: ExtractClaims, resolve: ResolvePath,
                         query: string, oracle: Oracle, history: seq<FsOp>): (run: Run<string>)
  {
    var claims := extractClaims(jwt.token, config.jwtSecret);
    if claims.Failure? then Run(Failure(ClaimsRejected(claims.error)), [])
    else
      var path := resolve(claims.value.id, query);
      if path.Failure? then Run(Failure(PathRejected(path.error)), [])
      else
        var created := oracle.createDirAll(history, path.value);
        if created.Failure? then Run(Failure(FsFailed(created.error)), [FsOp.CreateDirAll(path.value)])
        else Run(Success(DirectoryCreated), [FsOp.CreateDirAll(path.value)])
  }

  /** The `create_dir` handler on the filesystem `fs`. */
  method CreateDirHandler(fs: FileSystem, config: Config, jwt: Jwt, extractClaims: ExtractClaims,
                          resolve: ResolvePath, query: string)
    returns (r: Result<string, HandlerError>)
    modifies fs
    ensures var run := CreateDirSpec(config, jwt, extractClaims, resolve, query, fs.oracle, old(fs.log));
      r == run.result && fs.log == old(fs.log) + run.calls
  {
    var claims := extractClaims(jwt.token, config.jwtSecret);
    if claims.Failure? {
      return Failure(ClaimsRejected(claims.error));
    }
    var fullPath := resolve(claims.value.id, query);
    if fullPath.Failure? {
      return Failure(PathRejected(fullPath.error));
    }
    var created := fs.CreateDirAll(fullPath.value);
    if created.Failure? {
      return Failure(FsFailed(created.error));
    }
    return Success(DirectoryCreated);
  }

  /** Failed claims are answered as such; no path is resolved and no file is touched. */
  lemma CreateDirClaimsFailure(config: Config, jwt: Jwt, extractClaims: ExtractClaims,
                               resolve: ResolvePath, resolve': ResolvePath, query: string,
                               oracle: Oracle, history: seq<FsOp>)
    requires extractClaims(jwt.token, config.jwtSecret).Failure?
    ensures CreateDirSpec(config, jwt, extractClaims, resolve, query, oracle, history)
         == CreateDirSpec(config, jwt, extractClaims, resolve', query, oracle, history)
         == Run(Failure(ClaimsRejected(extractClaims(jwt.token, config.jwtSecret).error)), [])
  {
  }

  /** A failed resolution is answered as such and no file is touched. */
  lemma CreateDirResolveFailure(config: Config, jwt: Jwt, extractClaims: ExtractClaims,
                                resolve: ResolvePath, query: string,
                                oracle: Oracle, history: seq<FsOp>)
    requires extractClaims(jwt.token, config.jwtSecret).Success?
    requires resolve(extractClaims(jwt.token, config.jwtSecret).value.id, query).Failure?
    ensures CreateDirSpec(config, jwt, extractClaims, resolve, query, oracle, history)
         == Run(Failure(PathRejected(resolve(extractClaims(jwt.token, config.jwtSecret).value.id, query).error)), [])
  {
  }

  /**
   * Past the claims and the resolution, exactly one `create_dir_all` on the
   * resolved path is made; its failure is the answer, and otherwise the
   * answer is the fixed message.
   */
  lemma CreateDirCall(config: Config, jwt: Jwt, extractClaims: ExtractClaims,
                      resolve: ResolvePath, query: string,
                      oracle: Oracle, history: seq<FsOp>)
    requires extractClaims(jwt.token, config.jwtSecret).Success?
    requires resolve(extractClaims(jwt.token, config.jwtSecret).value.id, query).Success?
    ensures var path := resolve(extractClaims(jwt.token, config.jwtSecret).value.id, query).value;
      var run := CreateDirSpec(config, jwt, extractClaims, resolve, query, oracle, history);
      var created := oracle.createDirAll(history, path);
      && run.calls == [FsOp.CreateDirAll(path)]
      && run.result == (if created.Failure? then Failure(FsFailed(created.error)) else Success(DirectoryCreated))
  {
  }

  /** The only success answer is the fixed message. */
  lemma CreateDirSuccessBody(config: Config, jwt: Jwt, extractClaims: ExtractClaims,
                             resolve: ResolvePath, query: string,
                             oracle: Oracle, history: seq<FsOp>)
    requires CreateDirSpec(config, jwt, extractClaims, resolve, query, oracle, history).result.Success?
    ensures CreateDirSpec(config, jwt, extractClaims, resolve, query, oracle, history).result.value
         == "directory successfully created!"
  {
  }

  /**
   * The read-only flag changes neither the answer nor the calls of
   * `create_dir`, because the handler never consults the guard.
   */
  lemma CreateDirIgnoresReadOnly(config: Config, jwt: Jwt, extractClaims: ExtractClaims,
                                 resolve: ResolvePath, query: string,
                                 oracle: Oracle, history: seq<FsOp>)
    ensures CreateDirSpec(config.(readOnly := true), jwt, extractClaims, resolve, query, oracle, history)
         == CreateDirSpec(config.(readOnly := false), jwt, extractClaims, resolve, query, oracle, history)
  {
  }

  /**
   * A concrete run: with the read-only flag set, valid claims, a resolvable
   * path and a filesystem that accepts the call, `create_dir` creates the
   * directory and succeeds.
   */
  lemma CreateDirSucceedsWhenReadOnly()
    ensures var config := Config("secret", "secret", true);
      var extract: ExtractClaims := (token, secret) => Success(Claims("user", 7, 1, 0));
      var resolve: ResolvePath := (id, rel) => Success("data/users/7/files/" + rel);
      var oracle := Oracle((h, p) => Failure(IoError("unused")), (h, p) => Failure(IoError("unused")),
                           (h, p, q) => Failure(IoError("unused")), (h, p) => Success(()));
      CreateDirSpec(config, Jwt("token"), extract, resolve, "a", oracle, [])
      == Run(Success(DirectoryCreated), [FsOp.CreateDirAll("data/users/7/files/a")])
  {
    assert "data/users/7/files/" + "a" == "data/users/7/files/a";
  }
}
