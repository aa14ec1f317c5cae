/** The behaviour of `falcoctl artifact install` (cmd/artifact_install.go) as
    functions: the collaborators the command calls, the registry gate, the
    kind-to-directory switch, what one token does to the run, and what a
    whole batch does. The class in artifact_install.dfy is proved to follow
    these functions. */
module InstallSpec {
  import opened Wrappers
  import opened Resolver

  /** The errors the command returns. A collaborator's own error is returned
      unchanged (`Cause`); three are built by the command itself. */
  datatype Error =
    | Cause(message: string)
    | CannotLoadIndex(name: string, cause: string)
    | CannotCreateTempDir(cause: string)
    | CannotConnect(registry: string)

  /** The artifact kinds of the OCI layer; any other value of the kind string is `OtherKind`. */
  datatype Kind = Plugin | Rulesfile | OtherKind(name: string)

  /** What a successful pull reports: the kind and the file name inside the scratch directory. */
  datatype PullResult = PullResult(kind: Kind, filename: string)

  datatype Credential = Credential(secret: string)

  /** The credential store: the credential for a registry host, or its error. */
  datatype Store = Store(credential: string -> Result<Credential, string>)

  /** A puller bound to the client built from one credential. */
  datatype Puller = Puller(credential: Credential)

  /** The operating system and architecture of the running process. */
  datatype Platform = Platform(os: string, arch: string)

  /** The outcomes of everything the command calls but does not implement.
      An `Option<string>` outcome is the error, if any. */
  datatype Host = Host(
    indexConfig: Result<seq<string>, string>,              // names of the configured indexes
    readIndex: string -> Option<string>,                   // reading one index file
    newStore: Result<Store, string>,                       // opening the credential store
    mkdirTemp: Result<string, string>,                     // creating the scratch directory
    registryFromRef: string -> Result<string, string>,     // the registry host of a reference
    probe: (Credential, string) -> Option<string>,         // the connection check
    pull: (Puller, string, string, Platform) -> Result<PullResult, string>,
    open: string -> Option<string>,                        // opening a file
    extract: (string, string) -> Option<string>,           // extracting an archive into a directory
    remove: string -> Option<string>)                      // removing a file

  /** An artifact whose archive was extracted into `destDir`. */
  datatype InstalledArtifact = InstalledArtifact(ref: string, kind: Kind, destDir: string)

  /** The observable state of a run. */
  datatype State = State(
    installed: seq<InstalledArtifact>,
    warnings: seq<string>,
    pulled: seq<string>,        // references handed to the puller, in order
    scratch: set<string>)       // files present in the scratch directory

  /** A state together with the error that stopped the run, if any. */
  datatype Progress = Progress(state: State, err: Option<Error>)

  /** Everything one batch of tokens is processed against. */
  datatype Run = Run(
    host: Host,
    index: map<string, Entry>,
    store: Store,
    tmpDir: string,
    platform: Platform,
    pluginsDir: string,
    rulesfilesDir: string)

  function Abort(s: State, e: Error): Progress {
    Progress(s, Some(e))
  }

  /** The warning printed for a bare name the merged index does not know. */
  function SkipWarning(name: string): string {
    "cannot find " + name + " among the configured indexes, skipping\n"
  }

  /** filepath.Join of a directory and a file name (without path cleaning). */
  function JoinPath(dir: string, name: string): string {
    dir + "/" + name
  }

  /** The registry gate (getPuller): a puller only when both the credential
      lookup and the connection check succeed; a credential error is passed
      on unchanged, a failed check becomes an error naming the registry. */
  function Gate(store: Store, probe: (Credential, string) -> Option<string>, registry: string): (r: Result<Puller, Error>)
    ensures r.Success? <==>
      store.credential(registry).Success? && probe(store.credential(registry).value, registry).None?
    ensures r.Success? ==> r.value.credential == store.credential(registry).value
    ensures store.credential(registry).Failure? ==> r == Failure(Cause(store.credential(registry).error))
    ensures store.credential(registry).Success? && r.Failure? ==> r == Failure(CannotConnect(registry))
  {
    match store.credential(registry)
    case Failure(e) => Failure(Cause(e))
    case Success(cred) =>
      if probe(cred, registry).Some? then Failure(CannotConnect(registry))
      else Success(Puller(cred))
  }

  /** The destination directory of a pulled artifact, chosen by its kind
      alone; a kind outside Plugin and Rulesfile gets the empty string. */
  function DestinationFor(kind: Kind, pluginsDir: string, rulesfilesDir: string): (dir: string)
    ensures kind == Plugin ==> dir == pluginsDir
    ensures kind == Rulesfile ==> dir == rulesfilesDir
    ensures kind.OtherKind? ==> dir == ""
  {
    match kind
    case Plugin => pluginsDir
    case Rulesfile => rulesfilesDir
    case OtherKind(_) => ""
  }

  /** One token of the batch (lines 113-170). It never takes back an
      earlier install, warning or pull and adds at most one of each; a token
      that resolves and goes through adds exactly one pull of its reference
      and one install. */
  function Step(r: Run, s: State, token: string): (p: Progress)
    ensures s.installed <= p.state.installed && |p.state.installed| <= |s.installed| + 1
    ensures s.warnings <= p.state.warnings && |p.state.warnings| <= |s.warnings| + 1
    ensures s.pulled <= p.state.pulled && |p.state.pulled| <= |s.pulled| + 1
    ensures p.err.None? && Resolve(token, r.index).Some? ==>
      && p.state.pulled == s.pulled + [Resolve(token, r.index).value]
      && |p.state.installed| == |s.installed| + 1
      && p.state.warnings == s.warnings
  {
    match Resolve(token, r.index)
    case None => Progress(s.(warnings := s.warnings + [SkipWarning(token)]), None)
    case Some(ref) => Fetch(r, s, ref)
  }

  /** A resolved reference: host extraction, the gate and the pull (lines
      125-141). It never warns; the reference is handed to the puller exactly
      when its registry host was found and the gate let it through; when it
      returns nil, one artifact of that reference was installed. */
  function Fetch(r: Run, s: State, ref: string): (p: Progress)
    ensures p.state.warnings == s.warnings
    ensures p.state.pulled == s.pulled + [ref] <==>
      r.host.registryFromRef(ref).Success? &&
      Gate(r.store, r.host.probe, r.host.registryFromRef(ref).value).Success?
    ensures p.state.pulled == s.pulled || p.state.pulled == s.pulled + [ref]
    ensures s.installed <= p.state.installed && |p.state.installed| <= |s.installed| + 1
    ensures p.err.None? ==>
      |p.state.installed| == |s.installed| + 1 && p.state.installed[|s.installed|].ref == ref
  {
    match r.host.registryFromRef(ref)
    case Failure(e) => Abort(s, Cause(e))
    case Success(registry) =>
      match Gate(r.store, r.host.probe, registry)
      case Failure(e) => Abort(s, e)
      case Success(puller) =>
        var s := s.(pulled := s.pulled + [ref]);
        match r.host.pull(puller, ref, r.tmpDir, r.platform)
        case Failure(e) => Abort(s, Cause(e))
        case Success(result) => Place(r, s, ref, result)
  }

  /** A pulled archive: open, extract into its destination, remove (lines
      143-170). It returns nil exactly when all three succeed, and then the
      artifact is installed in the directory of its kind and its archive is
      gone from the scratch directory; on an error the archive stays there. */
  function Place(r: Run, s: State, ref: string, result: PullResult): (p: Progress)
    ensures p.state.warnings == s.warnings && p.state.pulled == s.pulled
    ensures var path := JoinPath(r.tmpDir, result.filename);
      var dest := DestinationFor(result.kind, r.pluginsDir, r.rulesfilesDir);
      && (p.err.None? <==> r.host.open(path).None? && r.host.extract(path, dest).None? && r.host.remove(path).None?)
      && (p.err.None? ==> path !in p.state.scratch && p.state.scratch <= s.scratch)
      && (p.err.None? ==> p.state.installed == s.installed + [InstalledArtifact(ref, result.kind, dest)])
      && (p.err.Some? ==> path in p.state.scratch && p.state.scratch == s.scratch + {path})
      && (p.err.Some? ==> p.state.installed == s.installed || p.state.installed == s.installed + [InstalledArtifact(ref, result.kind, dest)])
  {
    var dest := DestinationFor(result.kind, r.pluginsDir, r.rulesfilesDir);
    var path := JoinPath(r.tmpDir, result.filename);
    var s := s.(scratch := s.scratch + {path});
    if r.host.open(path).Some? then Abort(s, Cause(r.host.open(path).value))
    else if r.host.extract(path, dest).Some? then Abort(s, Cause(r.host.extract(path, dest).value))
    else
      var s := s.(installed := s.installed + [InstalledArtifact(ref, result.kind, dest)]);
      if r.host.remove(path).Some? then Abort(s, Cause(r.host.remove(path).value))
      else Progress(s.(scratch := s.scratch - {path}), None)
  }

  /** The tokens processed in order from `s`; the first error stops the batch
      and leaves the state as that token left it (lines 112-173). Nothing is
      rolled back: installs, warnings and pulls of the starting state are
      kept, and each token adds at most one of each. */
  function Batch(r: Run, s: State, tokens: seq<string>): (p: Progress)
    ensures s.installed <= p.state.installed && |p.state.installed| <= |s.installed| + |tokens|
    ensures s.warnings <= p.state.warnings && |p.state.warnings| <= |s.warnings| + |tokens|
    ensures s.pulled <= p.state.pulled && |p.state.pulled| <= |s.pulled| + |tokens|
    decreases |tokens|
  {
    if tokens == [] then Progress(s, None)
    else
      var p := Batch(r, s, tokens[..|tokens| - 1]);
      if p.err.Some? then p else Step(r, p.state, tokens[|tokens| - 1])
  }

  /** Position of the first configured index whose file cannot be read, or
      the number of indexes when all are readable (lines 83-92). */
  function FirstUnreadable(readIndex: string -> Option<string>, names: seq<string>): (k: nat)
    ensures k <= |names|
    ensures forall j :: 0 <= j < k ==> readIndex(names[j]).None?
    ensures k < |names| ==> readIndex(names[k]).Some?
  {
    if names == [] then 0
    else if readIndex(names[0]).Some? then 0
    else 1 + FirstUnreadable(readIndex, names[1..])
  }

  /** The index configuration, every index file and the credential store were read. */
  predicate IndexesAndStoreReady(h: Host) {
    && h.indexConfig.Success?
    && FirstUnreadable(h.readIndex, h.indexConfig.value) == |h.indexConfig.value|
    && h.newStore.Success?
  }

  /** The run gets as far as creating its scratch directory. */
  predicate OpensWorkspace(h: Host) {
    IndexesAndStoreReady(h) && h.mkdirTemp.Success?
  }

  /** The whole command (lines 73-173): the stages before the loop, the loop
      over the tokens, and the deferred removal of the scratch directory.
      A failure before the scratch directory exists returns an error before
      any token is looked at; once it exists, no scratch file survives. */
  function Installation(h: Host, index: map<string, Entry>, platform: Platform,
                        pluginsDir: string, rulesfilesDir: string, s: State, args: seq<string>): (p: Progress)
    ensures !OpensWorkspace(h) ==> p.state == s && p.err.Some?
    ensures OpensWorkspace(h) ==> p.state.scratch == {}
  {
    match h.indexConfig
    case Failure(e) => Abort(s, Cause(e))
    case Success(names) =>
      var k := FirstUnreadable(h.readIndex, names);
      if k < |names| then Abort(s, CannotLoadIndex(names[k], h.readIndex(names[k]).value))
      else
        match h.newStore
        case Failure(e) => Abort(s, Cause(e))
        case Success(store) =>
          match h.mkdirTemp
          case Failure(e) => Abort(s, CannotCreateTempDir(e))
          case Success(tmpDir) =>
            var p := Batch(Run(h, index, store, tmpDir, platform, pluginsDir, rulesfilesDir), s, args);
            Progress(p.state.(scratch := {}), p.err)
  }

  /** Processing token `i` after a clean prefix extends the prefix by one
      Step, and an error there settles the whole batch. */
  lemma {:induction false} BatchStep(r: Run, s: State, tokens: seq<string>, i: nat)
    requires i < |tokens|
    requires Batch(r, s, tokens[..i]).err.None?
    ensures Batch(r, s, tokens[..i + 1]) == Step(r, Batch(r, s, tokens[..i]).state, tokens[i])
    ensures Batch(r, s, tokens[..i + 1]).err.Some? ==> Batch(r, s, tokens) == Batch(r, s, tokens[..i + 1])
  {
    assert tokens[..i + 1][..i] == tokens[..i];
    if Batch(r, s, tokens[..i + 1]).err.Some? {
      AbortIsFinal(r, s, tokens, i + 1);
    }
  }

  /** Once a prefix of the tokens has stopped with an error, the tokens after
      it change nothing: they are never attempted. */
  lemma {:induction false} AbortIsFinal(r: Run, s: State, tokens: seq<string>, k: nat)
    requires k <= |tokens|
    requires Batch(r, s, tokens[..k]).err.Some?
    ensures Batch(r, s, tokens) == Batch(r, s, tokens[..k])
    decreases |tokens| - k
  {
    if k < |tokens| {
      var front := tokens[..|tokens| - 1];
      assert front[..k] == tokens[..k];
      AbortIsFinal(r, s, front, k);
    } else {
      assert tokens[..k] == tokens;
    }
  }
}
