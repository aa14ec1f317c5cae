# falcoctl `artifact install`: a Dafny model of the install orchestrator

This project models the core of `falcoctl artifact install` (`cmd/artifact_install.go`).
Given a list of tokens, the command resolves each one to an OCI reference, passes the
registry gate (credential and connection check), pulls the artifact into a scratch
directory, extracts it into the directory for its kind and deletes the pulled archive.
Only one case skips a token and goes on: a bare name that the merged index does not
know. Every later failure ends the run at once, and the scratch directory is removed on
every return.

Files:

- `wrappers.dfy`: the `Option` and `Result` types.
- `resolver.dfy`: module `Resolver`. It holds `strings.ContainsAny`, the qualified-token
  test, the `registry/repository:latest` reference, and `Resolve`.
- `install_spec.dfy`: module `InstallSpec`. It holds the collaborators as a `Host` value
  of outcomes, the registry gate `Gate` (getPuller), the kind switch `DestinationFor`,
  and what one token does (`Step` → `Fetch` → `Place`). `Batch` is a whole batch, where
  the first error stops it. `Installation` is the whole command, including the stages
  before the loop and the deferred `os.RemoveAll`.
- `artifact_install.dfy`: module `ArtifactInstall`. Class `InstallOptions` is the Go
  options object. It has the fields the run updates: `installed`, `warnings`, `pulled`,
  the `scratch` file set, `tmpDir`, `tmpExists`, `credentialStore`, and the `workspaces`
  the object created. Its methods are `RunArtifactInstall` (stages, loop, deferred
  cleanup), `InstallAll` (the `for` loop over the tokens, with `continue` and early
  returns), `LoadIndexes` (the loop over the configured index files) and `GetPuller`.
  Each method is proved equal to the `InstallSpec` function that specifies it.
- `install_lemmas.dfy`: module `InstallLemmas`. It holds the properties of the batch:
  abort semantics, skipping, clean runs, the scratch bound, destinations, and the
  scenarios.

Collaborators become parts of a `Host` value: the index configuration, the reading of
each index file, the credential store, `os.MkdirTemp`, `GetRegistryFromRef`, the
connection check, the puller, `os.Open`, `ExtractTarGz` and `os.Remove`. The merged
index is a `map<string, Entry>` parameter. The operating system and architecture form a
`Platform` parameter that is fixed for the run.

For a kind other than Plugin or Rulesfile, the code leaves the destination as the empty
string and extracts there, without rejecting the artifact (lines 143-149). The model
keeps this behaviour and does not turn it into an error. `DestinationFor` and
`DestinationsFollowKind` state exactly this.

## Model

| member | source | states |
|---|---|---|
| `Resolver.ContainsAny` | cmd/artifact_install.go:114 | the result is true exactly when some character of the token is one of the separator characters |
| `Resolver.Resolve` | cmd/artifact_install.go:113-123 | a token fails to resolve exactly when it has no separator and the merged index does not have it; every resolved reference contains a separator |
| `Resolver.QualifiedTokenIsVerbatim` | cmd/artifact_install.go:114-115 | a token containing `:` or `@` resolves to itself, for every index, so the index is never consulted for it |
| `Resolver.BareTokenResolution` | cmd/artifact_install.go:116-122 | a token without `:` or `@` resolves exactly when the merged index has it, and then to `registry + "/" + repository + ":latest"` of its entry |
| `Resolver.LatestRefIsQualified` | cmd/artifact_install.go:122 | a reference built from an index entry always contains a separator |
| `Resolver.ResolveIdempotent` | cmd/artifact_install.go:113-123 | resolving a resolved reference again gives it back unchanged, under any index |
| `InstallSpec.Gate` | cmd/artifact_install.go:176-191 | a puller is returned exactly when both the credential lookup and the connection check succeed, and it is bound to that credential; a credential error is returned unchanged; a failed check becomes an error naming the registry |
| `ArtifactInstall.InstallOptions.GetPuller` | cmd/artifact_install.go:176-191 | the method (credential, then check, then puller, with early returns) returns exactly what `Gate` specifies for the stored credential store |
| `InstallSpec.DestinationFor` | cmd/artifact_install.go:143-149 | Plugin goes to pluginsDir, Rulesfile goes to rulesfilesDir, and any other kind goes to the empty string |
| `InstallSpec.Step` | cmd/artifact_install.go:113-170 | one token never removes an earlier install, warning or pull, and adds at most one of each; a resolvable token that returns nil has its reference appended to the pulls and one artifact appended to the installs, with no warning |
| `InstallSpec.Fetch` | cmd/artifact_install.go:125-141 | the reference is recorded as pulled exactly when its registry host is found and the gate lets it through, and at most once; no warning is added; a token that returns nil installs exactly one artifact, under its reference |
| `InstallSpec.Place` | cmd/artifact_install.go:143-168 | returns nil exactly when opening, extracting into the kind's directory and removing the archive all succeed; then the archive is gone from the scratch set and the artifact is recorded with its kind and directory; on an error the archive stays in the scratch set; pulls and warnings never change here |
| `InstallSpec.Batch` | cmd/artifact_install.go:112-173 | a batch only appends: earlier installs, warnings and pulls stay as a prefix, and each grows by at most one per token |
| `InstallSpec.Installation` | cmd/artifact_install.go:73-173 | a failure before the scratch directory exists returns an error with the state unchanged; once it exists, no scratch file remains on return |
| `InstallSpec.FirstUnreadable` | cmd/artifact_install.go:83-92 | gives the position of the first configured index whose file cannot be read: every index before it reads, and it fails (or it equals the number of indexes when all of them read) |
| `ArtifactInstall.InstallOptions.LoadIndexes` | cmd/artifact_install.go:83-92 | loads the indexes in configured order and stops at the first unreadable one, returning the "cannot load index" error with that index's name and cause; it returns no error exactly when every index was loaded |
| `InstallSpec.BatchStep` | cmd/artifact_install.go:112-171 | after a prefix without errors, token i is processed by one `Step` from the prefix's state, and an error there decides the whole batch |
| `InstallSpec.AbortIsFinal` | cmd/artifact_install.go:127-168 | once a prefix of the tokens has returned an error, the tokens after it change neither the state nor the error |
| `ArtifactInstall.InstallOptions.InstallAll` | cmd/artifact_install.go:111-173 | the loop leaves installed, warnings, pulled and the scratch set, and returns the error, exactly as `Batch` gives them for the tokens from the old state; the scratch directory and the credential store are untouched |
| `ArtifactInstall.InstallOptions.RunArtifactInstall` | cmd/artifact_install.go:73-173 | the final state and the error are those of `Installation`; afterwards the scratch directory does not exist and holds no file; a scratch directory is created only when the index configuration, every index file and the credential store were read, and `tmpDir` then names it; the credential store field holds the new store once the indexes and the store were read, is nil when the store failed after the indexes loaded, and is unchanged after an earlier failure |
| `ArtifactInstall.InstallOptions.constructor` | cmd/artifact_install.go:40-45 | the options start with the given directories, no credential store, no scratch directory and nothing installed |
| `InstallLemmas.UnknownNameIsSkipped` | cmd/artifact_install.go:117-121 | a bare name missing from the index adds exactly one warning and changes nothing else: no pull, no install, no error |
| `InstallLemmas.OnlyUnknownNames` | cmd/artifact_install.go:112-121 | a batch made only of unknown names returns nil, with one warning per name in order and nothing pulled or installed |
| `InstallLemmas.FirstFailureEndsBatch` | cmd/artifact_install.go:127-168 | if token k is the first to fail, the batch returns that token's error and state, the tokens after k are never attempted, and what earlier tokens installed and pulled stays |
| `InstallLemmas.StepSucceedsIff` | cmd/artifact_install.go:125-170 | a resolvable token returns nil exactly when every stage succeeds for its reference: registry lookup, gate, pull, open, extract into the kind's directory and remove |
| `InstallLemmas.NoFailureMeansNil` | cmd/artifact_install.go:112-173 | a batch returns nil exactly when every stage succeeds for every resolvable token, so unknown names never make it fail; this is the converse of FirstFailureEndsBatch |
| `InstallLemmas.ConnectionFailureAborts` | cmd/artifact_install.go:132-135 | when the connection check fails for the token's registry, processing the token returns the error naming that registry and leaves the state unchanged: nothing is pulled or installed |
| `InstallLemmas.InstalledTokenLeavesNoArchive` | cmd/artifact_install.go:151-168 | for a token that goes through, its archive `tmpDir/filename` was extracted into the directory its kind selects, the artifact is recorded as installed there, and the file is no longer in the scratch directory |
| `InstallLemmas.CleanBatch` | cmd/artifact_install.go:112-173 | a batch that returns nil pulled and installed every resolvable token in input order, warned once for each unresolvable one in order, and added no file to the scratch directory |
| `InstallLemmas.NameAndReferenceScenario` | cmd/artifact_install.go:112-173 | tokens `nginx-plugin` (indexed at ghcr.io, org/nginx-plugin) and `myrules:v1`, when every stage succeeds for both references, return nil after pulling and installing `ghcr.io/org/nginx-plugin:latest` and then `myrules:v1`, with no warning |
| `InstallLemmas.ScratchHoldsAtMostOneFile` | cmd/artifact_install.go:138-168 | starting from an empty scratch directory, it never holds more than one pulled file, and none when the batch returns nil |
| `InstallLemmas.DestinationsFollowKind` | cmd/artifact_install.go:143-149 | every installed artifact sits in the directory its kind selects, and an artifact of an unknown kind is installed into the empty-string directory |
| `InstallLemmas.WorkspaceIsSwept` | cmd/artifact_install.go:104-109 | once the scratch directory exists, the command returns the batch's error, success or not, and no scratch file remains |
| `InstallLemmas.UnknownNamesOnlyCommandSucceeds` | cmd/artifact_install.go:112-173 | a command whose tokens are all unknown names returns nil after one warning per name, with nothing pulled |

## Left out

- Cobra command construction, usage text and flag defaults (lines 48-70) are CLI wiring.
- Index configuration parsing, `.yaml` file names and index merging (lines 74-97) are not modelled. The configuration is a list of index names, reading a file is only its error outcome, and the merged index is a `map` parameter. Duplicate-name resolution belongs to `pkg/index`, which is not part of this model.
- The credential store, `CheckRegistryConnection`, `authn.NewClient`, the OCI puller and its progress tracker are network and auth code. They appear only through their success or error outcomes. The connection check's own error, which the code logs verbosely and then replaces, is not kept.
- `GetRegistryFromRef` and `ExtractTarGz` are abstract outcomes. Nothing is modelled about what an extraction writes into the destination beyond recording the installed artifact.
- The random name chosen by `os.MkdirTemp` is the outcome's value. `runtime.GOOS`/`runtime.GOARCH` are a fixed `Platform` parameter. The context `ctx` and cancellation are not modelled.
- Printer, spinner and verbose output are not modelled, except the skip warning. This includes the success line printed after each install.
- The opened archive `f` (line 154) is never closed by the code. The model has no file handles, so nothing is claimed about closing.
- Error text: `%w` wrapping and `%q` quoting are represented by the `Error` constructors (`CannotLoadIndex`, `CannotCreateTempDir`, `CannotConnect`), not as formatted strings.
- `JoinPath` is `dir + "/" + name`; the path cleaning of `filepath.Join` is not modelled.
- A failed pull is modelled as leaving no file in the scratch directory. Whatever it may leave is removed by the deferred cleanup anyway.
- `InstallSpec.Place`: an artifact is recorded as installed once `ExtractTarGz` succeeds. If the later `os.Remove` fails, the run still stops with an error but the extracted contents stay recorded. A failed extraction records nothing, although it may have written part of the archive.
- ArtifactInstall.InstallOptions.RunArtifactInstall: assumes the deferred `os.RemoveAll` succeeds, because the code discards its error. After a failed `authn.NewStore` the credential store field is `None`, matching the nil store the constructor returns with its error.
