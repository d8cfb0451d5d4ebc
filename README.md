# Triox file-operation handlers

A Dafny model of three HTTP handlers of the Triox cloud-storage server:
`list` (enumerate a directory of the caller's storage and split it into
files and other entries), `move` (rename a file or directory) and
`create_dir` (create a directory with all missing ancestors). Each handler
is a short pipeline of early returns: extract the claims of the bearer
token, resolve the client's relative path under the caller's user id,
possibly consult the read-only guard, make one or two filesystem calls and
turn the outcome into a response.

Layout:

- `wrappers.dfy` (`Wrappers`): `Option` and `Result`.
- `collaborators.dfy` (`Collaborators`): claims, configuration, token, the
  error values of the hidden collaborators and the handler error type.
  `jwt::extract_claims`, `resolve_path` and `read_only_guard` are not part
  of this model; they are uninterpreted functions passed to each handler.
- `fs.dfy` (`FsModel`): directory entries, OS names, the enumeration
  stream, the `FileSystem` class whose `log` records every `read_dir`,
  `metadata`, `rename` and `create_dir_all` call in order, and an `Oracle` that gives each call's outcome as a function of
  the calls made before it. Properties are therefore about which calls
  happen and in what order, never about what a real filesystem does.
- `list.dfy`, `move.dfy`, `create_dir.dfy`: one module per handler. Each has
  a specification function (`ListSpec`, `MoveSpec`, `CreateDirSpec`) giving
  the answer and the calls, an imperative handler method on a
  `FileSystem` proved to produce exactly that answer and to append exactly
  those calls to the log, and lemmas stating the handler's properties.
  `list` also has its two loops as methods (`CollectEntries`,
  `PartitionEntries`) proved against `Collected` and `Partition`, and a
  reference definition `Selected` of the two lists.

Behaviour of the code that the model keeps as written:

- `create_dir` never calls the read-only guard (src/apps/files/create_dir.rs:8-20,
  unlike src/apps/files/move.rs:14), so a read-only server still creates
  directories; `CreateDirSucceedsWhenReadOnly` exhibits such a run.
- `list` uses `resolve_path` without `?` (src/apps/files/list.rs:27), so in
  `list` the resolver is a total function `(int, string) -> Path`, while
  `move` and `create_dir` treat it as fallible.
- `move` calls `read_only_guard` as its very first step, before the claims
  are extracted or any path is resolved (src/apps/files/move.rs:14).
- An enumeration error during `list` is not reported: the loop just stops
  (src/apps/files/list.rs:35-42).
- The message of a failed name conversion is `to_str()` of the name or else
  "String conversion failed"; a name that fails `into_string` also fails
  `to_str`, so the message is always the fixed text.
- `list` and `create_dir` pass `config.jwt.secret` to the claims extractor,
  `move` passes `config.server.secret`; `Config` carries both.

## Model

| member | source | states |
|---|---|---|
| FsModel.IntoString | src/apps/files/list.rs:54 | converting a name succeeds exactly for valid Unicode, giving its text; otherwise the name itself is the error |
| FsModel.ToStr | src/apps/files/list.rs:56-57 | the text of a name is available exactly when it is valid Unicode |
| FsModel.FileSystem.ReadDir | src/apps/files/list.rs:29-31 | `read_dir` appends one `ReadDir(path)` to the log and answers what the oracle gives for the history before it |
| FsModel.FileSystem.Metadata | src/apps/files/move.rs:21 | `metadata` appends one `Metadata(path)` to the log and answers the oracle's outcome |
| FsModel.FileSystem.Rename | src/apps/files/move.rs:23 | `rename` appends one `Rename(source, dest)` to the log and answers the oracle's outcome |
| FsModel.FileSystem.CreateDirAll | src/apps/files/create_dir.rs:17 | `create_dir_all` appends one `CreateDirAll(path)` to the log and answers the oracle's outcome |
| List.NextAt | src/apps/files/list.rs:36 | definition: the answer of `next_entry` at a position of the enumeration, `Ok(None)` past its end |
| List.Collected | src/apps/files/list.rs:35-42 | the collected entries are exactly the answers before the first end of stream or enumeration error, in order |
| List.CollectedUnique | src/apps/files/list.rs:35-42 | those two conditions determine the collected entries uniquely |
| List.CollectedIgnoresRest | src/apps/files/list.rs:39-41 | nothing after the first end of stream or error is ever collected |
| List.EnumErrorTruncates | src/apps/files/list.rs:35-42 | an enumeration error after some entries silently ends collection with exactly those entries |
| List.CollectEntries | src/apps/files/list.rs:33-42 | the collection loop returns exactly the collected entries of the enumeration |
| List.ConversionMessage | src/apps/files/list.rs:56-58 | definition: the error text of a failed name conversion, `to_str()` of the name or else "String conversion failed" |
| List.Classify | src/apps/files/list.rs:48-67 | definition: one pass of the split loop on one entry: type lookup, then name conversion, giving (is regular file, name) or the first error |
| List.Partition | src/apps/files/list.rs:44-71 | definition: the result of the split loop after a prefix of the entries, stopping at the first error |
| List.ConversionMessageIsFixed | src/apps/files/list.rs:54-67 | a failed name conversion always carries the message "String conversion failed" |
| List.EntryError | src/apps/files/list.rs:48-67 | an unclassifiable entry with a known type fails with the fixed conversion message; otherwise the type-lookup error is wrapped as internal |
| List.ClassifyMeaning | src/apps/files/list.rs:48-67 | one entry is classified exactly when its type lookup succeeds and its name is Unicode, as (is regular file, name); otherwise with its entry error |
| List.PartitionEntries | src/apps/files/list.rs:44-71 | the split loop returns exactly the split of the entries, including its early error return |
| List.SelectedAppend | src/apps/files/list.rs:47-68 | the reference lists of a concatenation are the concatenated lists: both keep enumeration order |
| List.PrefixFailureStays | src/apps/files/list.rs:51 | once the split has failed on a prefix, later entries do not change the answer |
| List.PartitionMeaning | src/apps/files/list.rs:44-71 | the split succeeds iff every entry is readable, and then `files` are the names of the regular files and `dirs` the names of all other entries, in order |
| List.PartitionFirstError | src/apps/files/list.rs:48-67 | a failing split reports the error of the first unreadable entry |
| List.NonUnicodeNameFails | src/apps/files/list.rs:54-67 | a name that is not valid Unicode fails the whole split and is never dropped |
| List.FileTypeErrorFails | src/apps/files/list.rs:48-51 | a failed type lookup fails the whole split |
| List.SelectedCover | src/apps/files/list.rs:44-71 | for readable entries, the two lists together have as many names as there are entries |
| List.ListSpec | src/apps/files/list.rs:20-72 | definition: the answer of `list` and its calls: claims, resolution, `read_dir`, collection and split |
| List.ListHandler | src/apps/files/list.rs:20-72 | the handler answers what `ListSpec` gives and appends exactly its calls to the log |
| List.ListClaimsFailure | src/apps/files/list.rs:25 | failed claims are answered as that error, with no filesystem call |
| List.ListReadDirFailure | src/apps/files/list.rs:27-31 | a failed `read_dir` on the resolved path is an internal server error after that single call |
| List.ListSuccess | src/apps/files/list.rs:25-71 | on success exactly one `ReadDir` of the path resolved under the caller's id was made, every collected entry was readable, the lists are the order-preserving selections and they cover the collected entries |
| List.ListFailsOnFirstBadEntry | src/apps/files/list.rs:47-68 | when a collected entry cannot be classified, `list` fails with the error of the first such entry |
| Move.MovedMessage | src/apps/files/move.rs:25-29 | the message is "Directory successfully moved" exactly for a directory and "File successfully moved" otherwise |
| Move.MoveSpec | src/apps/files/move.rs:9-30 | definition: the answer of `move` and its calls: guard, claims, resolution of `from` then `to`, `metadata`, `rename`, message |
| Move.MoveHandler | src/apps/files/move.rs:9-30 | the handler answers what `MoveSpec` gives and appends exactly its calls to the log |
| Move.MoveGuardFirst | src/apps/files/move.rs:14 | a failing guard is the answer whatever the claims extractor and resolver would do, with no filesystem call |
| Move.MoveClaimsFailure | src/apps/files/move.rs:16 | after the guard, failed claims are the answer whatever the resolver would do, with no filesystem call |
| Move.MoveResolveFailure | src/apps/files/move.rs:18-19 | if either path fails to resolve under the caller's id, the failure of `from` (else of `to`) is the answer, with no filesystem call |
| Move.MoveMetadataFailure | src/apps/files/move.rs:21 | a failed `metadata` of the source is the answer after that one call; `rename` is not attempted |
| Move.MoveSuccess | src/apps/files/move.rs:14-29 | on success every step passed, the calls were exactly `Metadata(src)` then `Rename(src, dst)` on the paths resolved under the caller's id, and the message names a directory iff the source's pre-rename metadata is a directory |
| Move.MoveRenameFailure | src/apps/files/move.rs:23 | a failed `rename` is an error after both calls, never a success message |
| Move.MoveRenameAfterMetadata | src/apps/files/move.rs:21-23 | a `rename` is only ever made as the second call, right after a successful `metadata` of the same source |
| CreateDir.CreateDirSpec | src/apps/files/create_dir.rs:8-20 | definition: the answer of `create_dir` and its calls: claims, resolution, `create_dir_all`, fixed message |
| CreateDir.CreateDirHandler | src/apps/files/create_dir.rs:8-20 | the handler answers what `CreateDirSpec` gives and appends exactly its calls to the log |
| CreateDir.CreateDirClaimsFailure | src/apps/files/create_dir.rs:13 | failed claims are the answer whatever the resolver would do, with no filesystem call |
| CreateDir.CreateDirResolveFailure | src/apps/files/create_dir.rs:15 | a failed resolution is the answer, with no filesystem call |
| CreateDir.CreateDirCall | src/apps/files/create_dir.rs:15-19 | past claims and resolution, exactly one `CreateDirAll` of the resolved path is made; its failure is the answer, otherwise the fixed message |
| CreateDir.CreateDirSuccessBody | src/apps/files/create_dir.rs:19 | the only success answer is "directory successfully created!" |
| CreateDir.CreateDirIgnoresReadOnly | src/apps/files/create_dir.rs:8-20 | the read-only flag changes neither the answer nor the calls |
| CreateDir.CreateDirSucceedsWhenReadOnly | src/apps/files/create_dir.rs:13-19 | a concrete read-only configuration under which `create_dir` still creates the directory and succeeds |

## Left out

- src/main.rs (logger, routing, TLS, workers, binding, the `redirect` and `source_code` pages): server wiring and I/O, nothing to verify.
- src/tests/files/get.rs: tests of the `get` handler and of `resolve_path`, neither of which is part of this model; no traversal or token rule is derived from them.
- `jwt::extract_claims` (signature and expiry checking), `resolve_path` and `read_only_guard`: their code is not part of this model, so they are uninterpreted function parameters.
- The real semantics of the `tokio::fs` calls (idempotence of `create_dir_all`, atomicity of `rename`, enumeration order, what `file_type` reads): outcomes come from the oracle.
- Async/await, HTTP extraction of the token, query and JSON body, the mapping of errors to status codes, JSON serialisation of the listing, and concurrency between requests: framework concerns.
- `ReadDir::next_entry` (src/apps/files/list.rs:36) and `DirEntry::file_type` (src/apps/files/list.rs:48-50) calls are not logged: their outcomes are part of the stream that `read_dir` returns, so "exactly one `ReadDir`" speaks only of the four logged kinds of call.
- The text of errors raised by the collaborators and the filesystem: these are opaque values carried into the handler's error.
