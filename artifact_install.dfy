/** The install command's options object and its methods
    (cmd/artifact_install.go, lines 40-45 and 72-192), proved to follow the
    functions of InstallSpec. */
module ArtifactInstall {
  import opened Wrappers
  import opened Resolver
  import opened InstallSpec

  class InstallOptions {
    const pluginsDir: string
    const rulesfilesDir: string
    var credentialStore: Option<Store>

    // What the command leaves behind, observable after it returns.
    var installed: seq<InstalledArtifact>
    var warnings: seq<string>
    var pulled: seq<string>
    var scratch: set<string>
    var tmpDir: string
    var tmpExists: bool
    /** Every scratch directory this object has created, in order. */
    var workspaces: seq<string>

    function Snap(): State
      reads this
    {
      State(installed, warnings, pulled, scratch)
    }

    ghost function Context(h: Host, index: map<string, Entry>, platform: Platform): Run
      reads this
      requires credentialStore.Some?
    {
      Run(h, index, credentialStore.value, tmpDir, platform, pluginsDir, rulesfilesDir)
    }

    constructor (pluginsDir: string, rulesfilesDir: string)
      ensures this.pluginsDir == pluginsDir && this.rulesfilesDir == rulesfilesDir
      ensures credentialStore == None && !tmpExists && workspaces == []
      ensures Snap() == State([], [], [], {})
    {
      this.pluginsDir := pluginsDir;
      this.rulesfilesDir := rulesfilesDir;
      credentialStore := None;
      installed, warnings, pulled, scratch := [], [], [], {};
      tmpDir, tmpExists, workspaces := "", false, [];
    }

    /** RunArtifactInstall: the stages before the loop, the loop, and the
        deferred removal of the scratch directory on every later return. */
    method RunArtifactInstall(h: Host, merged: map<string, Entry>, platform: Platform, args: seq<string>)
      returns (err: Option<Error>)
      requires !tmpExists && scratch == {}
      modifies this
      ensures Progress(Snap(), err) ==
        Installation(h, merged, platform, pluginsDir, rulesfilesDir, old(Snap()), args)
      ensures !tmpExists && scratch == {}
      ensures workspaces == old(workspaces) + (if OpensWorkspace(h) then [h.mkdirTemp.value] else [])
      ensures tmpDir == if OpensWorkspace(h) then h.mkdirTemp.value else old(tmpDir)
      ensures credentialStore ==
        if IndexesAndStoreReady(h) then Some(h.newStore.value)
        else if h.indexConfig.Success? && FirstUnreadable(h.readIndex, h.indexConfig.value) == |h.indexConfig.value|
        then None
        else old(credentialStore)
    {
      var config := h.indexConfig;
      if config.Failure? {
        return Some(Cause(config.error));
      }
      var loaded, loadErr := LoadIndexes(h.readIndex, config.value);
      if loadErr.Some? {
        return loadErr;
      }
      var store := h.newStore;
      if store.Failure? {
        credentialStore := None;
        return Some(Cause(store.error));
      }
      credentialStore := Some(store.value);
      var tmp := h.mkdirTemp;
      if tmp.Failure? {
        return Some(CannotCreateTempDir(tmp.error));
      }
      tmpDir, tmpExists := tmp.value, true;
      workspaces := workspaces + [tmpDir];
      err := InstallAll(h, merged, platform, args);
      // deferred os.RemoveAll(tmpDir)
      tmpExists, scratch := false, {};
    }

    /** Reads the configured indexes in order and stops at the first one that
        cannot be read. */
    static method LoadIndexes(readIndex: string -> Option<string>, names: seq<string>)
      returns (loaded: seq<string>, err: Option<Error>)
      ensures |loaded| == FirstUnreadable(readIndex, names) && loaded == names[..|loaded|]
      ensures err.None? <==> loaded == names
      ensures err.Some? ==>
        err == Some(CannotLoadIndex(names[|loaded|], readIndex(names[|loaded|]).value))
    {
      loaded := [];
      for i := 0 to |names|
        invariant loaded == names[..i]
        invariant forall j :: 0 <= j < i ==> readIndex(names[j]).None?
      {
        var readErr := readIndex(names[i]);
        if readErr.Some? {
          return loaded, Some(CannotLoadIndex(names[i], readErr.value));
        }
        loaded := loaded + [names[i]];
      }
      assert loaded == names;
      return loaded, None;
    }

    /** The loop over the tokens (lines 112-173). */
    method InstallAll(h: Host, index: map<string, Entry>, platform: Platform, args: seq<string>)
      returns (err: Option<Error>)
      requires tmpExists && credentialStore.Some?
      modifies this
      ensures tmpExists && tmpDir == old(tmpDir) && workspaces == old(workspaces)
      ensures credentialStore == old(credentialStore)
      ensures Progress(Snap(), err) == Batch(Context(h, index, platform), old(Snap()), args)
    {
      ghost var r := Context(h, index, platform);
      ghost var s0 := Snap();
      for i := 0 to |args|
        invariant tmpExists && tmpDir == old(tmpDir) && workspaces == old(workspaces)
        invariant credentialStore == old(credentialStore)
        invariant Batch(r, s0, args[..i]) == Progress(Snap(), None)
      {
        BatchStep(r, s0, args, i);
        var name := args[i];
        var ref: string;
        if ContainsAny(name, Separators) {
          ref := name;
        } else {
          if name !in index {
            warnings := warnings + [SkipWarning(name)];
            continue;
          }
          ref := LatestRef(index[name]);
        }

        var registry := h.registryFromRef(ref);
        if registry.Failure? {
          return Some(Cause(registry.error));
        }

        var puller := GetPuller(h.probe, registry.value);
        if puller.Failure? {
          return Some(puller.error);
        }

        pulled := pulled + [ref];
        var result := h.pull(puller.value, ref, tmpDir, platform);
        if result.Failure? {
          return Some(Cause(result.error));
        }

        var destDir := "";
        match result.value.kind {
          case Plugin => destDir := pluginsDir;
          case Rulesfile => destDir := rulesfilesDir;
          case OtherKind(_) =>
        }

        var path := JoinPath(tmpDir, result.value.filename);
        scratch := scratch + {path};

        var openErr := h.open(path);
        if openErr.Some? {
          return Some(Cause(openErr.value));
        }

        var extractErr := h.extract(path, destDir);
        if extractErr.Some? {
          return Some(Cause(extractErr.value));
        }
        installed := installed + [InstalledArtifact(ref, result.value.kind, destDir)];

        var removeErr := h.remove(path);
        if removeErr.Some? {
          return Some(Cause(removeErr.value));
        }
        scratch := scratch - {path};
      }
      assert args[..|args|] == args;
      return None;
    }

    /** getPuller: the credential for the registry, the connection check, then a puller. */
    method GetPuller(probe: (Credential, string) -> Option<string>, registry: string)
      returns (puller: Result<Puller, Error>)
      requires credentialStore.Some?
      ensures puller == Gate(credentialStore.value, probe, registry)
    {
      var cred := credentialStore.value.credential(registry);
      if cred.Failure? {
        return Failure(Cause(cred.error));
      }
      var checkErr := probe(cred.value, registry);
      if checkErr.Some? {
        return Failure(CannotConnect(registry));
      }
      return Success(Puller(cred.value));
    }
  }
}
