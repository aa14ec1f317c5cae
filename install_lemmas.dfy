/** Properties of the install batch (cmd/artifact_install.go, lines 73-191),
    stated about the functions of InstallSpec and so about every run of the
    class that follows them. */
module InstallLemmas {
  import opened Wrappers
  import opened Resolver
  import opened InstallSpec

  /** The references the resolved tokens name, in input order. */
  function ResolvedRefs(index: map<string, Entry>, tokens: seq<string>): seq<string>
    decreases |tokens|
  {
    if tokens == [] then []
    else
      var front := ResolvedRefs(index, tokens[..|tokens| - 1]);
      match Resolve(tokens[|tokens| - 1], index)
      case Some(ref) => front + [ref]
      case None => front
  }

  /** One skip warning per token that does not resolve, in input order. */
  function SkipWarnings(index: map<string, Entry>, tokens: seq<string>): seq<string>
    decreases |tokens|
  {
    if tokens == [] then []
    else
      var front := SkipWarnings(index, tokens[..|tokens| - 1]);
      var last := tokens[|tokens| - 1];
      if Resolve(last, index).None? then front + [SkipWarning(last)] else front
  }

  function RefsOf(installed: seq<InstalledArtifact>): seq<string>
    decreases |installed|
  {
    if installed == [] then []
    else RefsOf(installed[..|installed| - 1]) + [installed[|installed| - 1].ref]
  }

  lemma RefsOfAppend(a: seq<InstalledArtifact>, x: InstalledArtifact)
    ensures RefsOf(a + [x]) == RefsOf(a) + [x.ref]
  {
  }

  /** The destination of an installed artifact is the one its kind selects. */
  predicate Placed(r: Run, e: InstalledArtifact) {
    e.destDir == DestinationFor(e.kind, r.pluginsDir, r.rulesfilesDir)
  }

  /** A bare name missing from the index adds exactly one warning and nothing
      else: no pull, no install, no error (lines 117-121). */
  lemma UnknownNameIsSkipped(r: Run, s: State, token: string)
    requires !IsQualified(token) && token !in r.index
    ensures Step(r, s, token) == Progress(s.(warnings := s.warnings + [SkipWarning(token)]), None)
  {
  }

  /** A run made only of unknown names returns nil: one warning per name and
      no pull (lines 117-121, 173). */
  lemma {:induction false} OnlyUnknownNames(r: Run, s: State, tokens: seq<string>)
    requires forall t :: t in tokens ==> !IsQualified(t) && t !in r.index
    ensures Batch(r, s, tokens) == Progress(s.(warnings := s.warnings + SkipWarnings(r.index, tokens)), None)
    decreases |tokens|
  {
    if tokens != [] {
      var front := tokens[..|tokens| - 1];
      assert forall t :: t in front ==> t in tokens;
      OnlyUnknownNames(r, s, front);
      assert tokens[|tokens| - 1] in tokens;
    }
  }

  /** If token k is the first to fail, the batch returns exactly that
      token's error and state: the tokens after it are never attempted, and
      what earlier tokens installed stays installed (lines 127-168). */
  lemma FirstFailureEndsBatch(r: Run, s: State, tokens: seq<string>, k: nat)
    requires k < |tokens|
    requires Batch(r, s, tokens[..k]).err.None?
    requires Step(r, Batch(r, s, tokens[..k]).state, tokens[k]).err.Some?
    ensures Batch(r, s, tokens) == Step(r, Batch(r, s, tokens[..k]).state, tokens[k])
    ensures Batch(r, s, tokens[..k]).state.installed <= Batch(r, s, tokens).state.installed
    ensures Batch(r, s, tokens[..k]).state.pulled <= Batch(r, s, tokens).state.pulled
  {
    BatchStep(r, s, tokens, k);
  }

  /** When the connection check fails for the token's registry, the token
      stops the batch with an error naming that registry, and nothing is
      pulled or installed for it (lines 132-135, 182-184). */
  lemma ConnectionFailureAborts(r: Run, s: State, token: string)
    requires Resolve(token, r.index).Some?
    requires r.host.registryFromRef(Resolve(token, r.index).value).Success?
    requires var registry := r.host.registryFromRef(Resolve(token, r.index).value).value;
      r.store.credential(registry).Success? &&
      r.host.probe(r.store.credential(registry).value, registry).Some?
    ensures Step(r, s, token) ==
      Abort(s, CannotConnect(r.host.registryFromRef(Resolve(token, r.index).value).value))
  {
  }

  /** A token that went through leaves no pulled archive behind: its file
      `tmpDir/filename` was extracted into the destination its kind selects
      and then removed from the scratch directory (lines 151-168). */
  lemma InstalledTokenLeavesNoArchive(r: Run, s: State, token: string)
    requires Resolve(token, r.index).Some?
    requires Step(r, s, token).err.None?
    ensures var ref := Resolve(token, r.index).value;
      var registry := r.host.registryFromRef(ref);
      && registry.Success?
      && var puller := Gate(r.store, r.host.probe, registry.value);
      && puller.Success?
      && var result := r.host.pull(puller.value, ref, r.tmpDir, r.platform);
      && result.Success?
      && var path := JoinPath(r.tmpDir, result.value.filename);
      && var dest := DestinationFor(result.value.kind, r.pluginsDir, r.rulesfilesDir);
      && r.host.extract(path, dest).None?
      && path !in Step(r, s, token).state.scratch
      && Step(r, s, token).state.installed == s.installed + [InstalledArtifact(ref, result.value.kind, dest)]
  {
  }

  /** A batch that returns nil pulled and installed every resolvable token
      in input order, warned once per unresolvable one, and left no pulled
      file in the scratch directory. */
  lemma {:induction false} CleanBatch(r: Run, s: State, tokens: seq<string>)
    requires Batch(r, s, tokens).err.None?
    ensures Batch(r, s, tokens).state.pulled == s.pulled + ResolvedRefs(r.index, tokens)
    ensures RefsOf(Batch(r, s, tokens).state.installed) == RefsOf(s.installed) + ResolvedRefs(r.index, tokens)
    ensures Batch(r, s, tokens).state.warnings == s.warnings + SkipWarnings(r.index, tokens)
    ensures Batch(r, s, tokens).state.scratch <= s.scratch
    decreases |tokens|
  {
    if tokens != [] {
      var front := tokens[..|tokens| - 1];
      var last := tokens[|tokens| - 1];
      var p := Batch(r, s, front);
      assert p.err.None?;
      CleanBatch(r, s, front);
      match Resolve(last, r.index)
      case None =>
      case Some(ref) =>
        var registry := r.host.registryFromRef(ref).value;
        var puller := Gate(r.store, r.host.probe, registry).value;
        var result := r.host.pull(puller, ref, r.tmpDir, r.platform).value;
        var dest := DestinationFor(result.kind, r.pluginsDir, r.rulesfilesDir);
        RefsOfAppend(p.state.installed, InstalledArtifact(ref, result.kind, dest));
    }
  }

  /** Every stage after resolution succeeds for `ref`: its registry host is
      found, the gate lets it through, the pull succeeds, and the pulled
      archive opens, extracts into the directory of its kind and is removed. */
  predicate StagesSucceed(r: Run, ref: string) {
    && r.host.registryFromRef(ref).Success?
    && var puller := Gate(r.store, r.host.probe, r.host.registryFromRef(ref).value);
    && puller.Success?
    && var result := r.host.pull(puller.value, ref, r.tmpDir, r.platform);
    && result.Success?
    && var path := JoinPath(r.tmpDir, result.value.filename);
    && r.host.open(path).None?
    && r.host.extract(path, DestinationFor(result.value.kind, r.pluginsDir, r.rulesfilesDir)).None?
    && r.host.remove(path).None?
  }

  /** Every resolvable token of `tokens` goes through all its stages. */
  predicate AllStagesSucceed(r: Run, tokens: seq<string>) {
    forall t :: t in tokens && Resolve(t, r.index).Some? ==> StagesSucceed(r, Resolve(t, r.index).value)
  }

  /** A resolvable token returns nil exactly when all of its stages succeed,
      whatever the state before it (lines 125-170). */
  lemma StepSucceedsIff(r: Run, s: State, token: string)
    requires Resolve(token, r.index).Some?
    ensures Step(r, s, token).err.None? <==> StagesSucceed(r, Resolve(token, r.index).value)
  {
  }

  /** A batch returns nil exactly when every stage succeeds for every
      resolvable token; unresolvable tokens never make it fail. This is the
      converse of FirstFailureEndsBatch (lines 112-173). */
  lemma {:induction false} NoFailureMeansNil(r: Run, s: State, tokens: seq<string>)
    ensures Batch(r, s, tokens).err.None? <==> AllStagesSucceed(r, tokens)
    decreases |tokens|
  {
    if tokens != [] {
      var front := tokens[..|tokens| - 1];
      var last := tokens[|tokens| - 1];
      NoFailureMeansNil(r, s, front);
      assert forall t :: t in tokens <==> t in front || t == last;
      var p := Batch(r, s, front);
      if p.err.None? && Resolve(last, r.index).Some? {
        StepSucceedsIff(r, p.state, last);
      }
    }
  }

  /** Proof helper for NameAndReferenceScenario: how `nginx-plugin` resolves
      when the index places it at ghcr.io, org/nginx-plugin. */
  lemma ResolveKnownName(index: map<string, Entry>)
    requires "nginx-plugin" in index
    requires index["nginx-plugin"].registry == "ghcr.io"
    requires index["nginx-plugin"].repository == "org/nginx-plugin"
    ensures Resolve("nginx-plugin", index) == Some("ghcr.io/org/nginx-plugin:latest")
  {
    var name := "nginx-plugin";
    assert ':' !in name && '@' !in name;
    BareTokenResolution(name, index);
    assert "ghcr.io" + "/" + "org/nginx-plugin" + ":latest" == "ghcr.io/org/nginx-plugin:latest" by {
      LiteralReference();
    }
  }

  /** Proof helper for ResolveKnownName: the reference string it builds. */
  lemma LiteralReference()
    ensures "ghcr.io" + "/" + "org/nginx-plugin" + ":latest" == "ghcr.io/org/nginx-plugin:latest"
  {
  }

  /** Proof helper for NameAndReferenceScenario: the resolved references and
      skip warnings of a two-token batch whose tokens both resolve. */
  lemma TwoResolvedTokens(index: map<string, Entry>, name: string, ref: string)
    requires Resolve(name, index).Some? && Resolve(ref, index).Some?
    ensures ResolvedRefs(index, [name, ref]) == [Resolve(name, index).value, Resolve(ref, index).value]
    ensures SkipWarnings(index, [name, ref]) == []
  {
    var tokens := [name, ref];
    assert tokens[..1] == [name] && tokens[1] == ref;
    assert [name][..0] == [];
    assert ResolvedRefs(index, [name]) == [Resolve(name, index).value];
    assert SkipWarnings(index, [name]) == [];
  }

  /** A known bare name followed by a qualified reference, both of whose
      stages all succeed. The batch returns nil after pulling and installing
      `ghcr.io/org/nginx-plugin:latest` and then `myrules:v1`, with no warning. */
  lemma NameAndReferenceScenario(r: Run, s: State)
    requires "nginx-plugin" in r.index
    requires r.index["nginx-plugin"].registry == "ghcr.io"
    requires r.index["nginx-plugin"].repository == "org/nginx-plugin"
    requires StagesSucceed(r, "ghcr.io/org/nginx-plugin:latest") && StagesSucceed(r, "myrules:v1")
    ensures Batch(r, s, ["nginx-plugin", "myrules:v1"]).err.None?
    ensures Batch(r, s, ["nginx-plugin", "myrules:v1"]).state.pulled ==
      s.pulled + ["ghcr.io/org/nginx-plugin:latest", "myrules:v1"]
    ensures RefsOf(Batch(r, s, ["nginx-plugin", "myrules:v1"]).state.installed) ==
      RefsOf(s.installed) + ["ghcr.io/org/nginx-plugin:latest", "myrules:v1"]
    ensures Batch(r, s, ["nginx-plugin", "myrules:v1"]).state.warnings == s.warnings
  {
    var tokens := ["nginx-plugin", "myrules:v1"];
    ResolveKnownName(r.index);
    QualifiedTokenIsVerbatim("myrules:v1", r.index);
    assert forall t :: t in tokens <==> t == "nginx-plugin" || t == "myrules:v1";
    assert AllStagesSucceed(r, tokens);
    NoFailureMeansNil(r, s, tokens);
    TwoResolvedTokens(r.index, "nginx-plugin", "myrules:v1");
    CleanBatch(r, s, tokens);
  }

  /** The scratch directory never holds more than one pulled file, and none
      once the batch returns nil. */
  lemma {:induction false} ScratchHoldsAtMostOneFile(r: Run, s: State, tokens: seq<string>)
    requires s.scratch == {}
    ensures |Batch(r, s, tokens).state.scratch| <= 1
    ensures Batch(r, s, tokens).err.None? ==> Batch(r, s, tokens).state.scratch == {}
    decreases |tokens|
  {
    if tokens != [] {
      var front := tokens[..|tokens| - 1];
      var last := tokens[|tokens| - 1];
      ScratchHoldsAtMostOneFile(r, s, front);
      var p := Batch(r, s, front);
      if p.err.None? {
        match Resolve(last, r.index)
        case None =>
        case Some(ref) =>
          var registry := r.host.registryFromRef(ref);
          if registry.Success? && Gate(r.store, r.host.probe, registry.value).Success? {
            var puller := Gate(r.store, r.host.probe, registry.value).value;
            var result := r.host.pull(puller, ref, r.tmpDir, r.platform);
            if result.Success? {
              var path := JoinPath(r.tmpDir, result.value.filename);
              var after := Step(r, p.state, last).state.scratch;
              assert after <= {path};
              if path in after {
                assert after == {path};
              } else {
                assert after == {};
              }
            }
          }
      }
    }
  }

  /** Every artifact is installed in the directory its kind selects:
      pluginsDir for Plugin, rulesfilesDir for Rulesfile, and the empty
      string for any other kind, which is not rejected (lines 143-149). */
  lemma {:induction false} DestinationsFollowKind(r: Run, s: State, tokens: seq<string>)
    requires forall e :: e in s.installed ==> Placed(r, e)
    ensures forall e :: e in Batch(r, s, tokens).state.installed ==> Placed(r, e)
    ensures forall e :: e in Batch(r, s, tokens).state.installed && e.kind.OtherKind? ==> e.destDir == ""
    decreases |tokens|
  {
    if tokens != [] {
      DestinationsFollowKind(r, s, tokens[..|tokens| - 1]);
    }
  }

  /** Once the scratch directory exists, the command removes it on every
      return: whatever the batch did, no scratch file is left (lines 105-109). */
  lemma WorkspaceIsSwept(h: Host, index: map<string, Entry>, platform: Platform,
                         pluginsDir: string, rulesfilesDir: string, s: State, args: seq<string>)
    requires OpensWorkspace(h)
    ensures var run := Run(h, index, h.newStore.value, h.mkdirTemp.value, platform, pluginsDir, rulesfilesDir);
      var p := Installation(h, index, platform, pluginsDir, rulesfilesDir, s, args);
      && p.err == Batch(run, s, args).err
      && p.state == Batch(run, s, args).state.(scratch := {})
  {
  }

  /** A command whose tokens are all unknown names returns nil after one
      warning per name, with nothing pulled (lines 117-121, 173). */
  lemma UnknownNamesOnlyCommandSucceeds(h: Host, index: map<string, Entry>, platform: Platform,
                                        pluginsDir: string, rulesfilesDir: string, s: State, args: seq<string>)
    requires OpensWorkspace(h) && s.scratch == {}
    requires forall t :: t in args ==> !IsQualified(t) && t !in index
    ensures Installation(h, index, platform, pluginsDir, rulesfilesDir, s, args) ==
      Progress(s.(warnings := s.warnings + SkipWarnings(index, args)), None)
  {
    var run := Run(h, index, h.newStore.value, h.mkdirTemp.value, platform, pluginsDir, rulesfilesDir);
    OnlyUnknownNames(run, s, args);
  }
}
