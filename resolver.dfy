/** Reference resolution: how a user token becomes the OCI reference that is
    pulled (cmd/artifact_install.go, lines 113-123). */
module Resolver {
  import opened Wrappers

  /** An entry of the merged index: where the artifact with this name lives. */
  datatype Entry = Entry(name: string, registry: string, repository: string)

  /** The separators whose presence marks a token as an already qualified reference. */
  const Separators: string := ":@"

  /** Whether some character of `s` occurs in `chars` (Go's strings.ContainsAny). */
  function ContainsAny(s: string, chars: string): (b: bool)
    ensures b <==> exists i :: 0 <= i < |s| && s[i] in chars
  {
    if s == [] then false
    else if s[0] in chars then true
    else
      var rest := ContainsAny(s[1..], chars);
      assert forall i :: 1 <= i < |s| ==> s[i] == s[1..][i - 1];
      rest
  }

  predicate IsQualified(token: string) {
    ContainsAny(token, Separators)
  }

  /** The reference built for a bare name found in the index. */
  function LatestRef(e: Entry): string {
    e.registry + "/" + e.repository + ":latest"
  }

  /** The reference pulled for `token`, or None when the token is a bare name
      the merged index does not know. Only such a name fails to resolve, and
      whatever it resolves to is a qualified reference. */
  function Resolve(token: string, index: map<string, Entry>): (ref: Option<string>)
    ensures ref.None? <==> !IsQualified(token) && token !in index
    ensures ref.Some? ==> IsQualified(ref.value)
  {
    if IsQualified(token) then Some(token)
    else if token in index then
      LatestRefIsQualified(index[token]);
      Some(LatestRef(index[token]))
    else None
  }

  /** A token holding ':' or '@' is the reference itself, whatever the index holds. */
  lemma QualifiedTokenIsVerbatim(token: string, index: map<string, Entry>)
    requires ':' in token || '@' in token
    ensures Resolve(token, index) == Some(token)
  {
  }

  /** A bare token resolves exactly when the index has it, to `registry/repository:latest`. */
  lemma BareTokenResolution(token: string, index: map<string, Entry>)
    requires ':' !in token && '@' !in token
    ensures Resolve(token, index).Some? <==> token in index
    ensures token in index ==>
      Resolve(token, index) == Some(index[token].registry + "/" + index[token].repository + ":latest")
  {
  }

  /** Every reference built from an index entry is itself qualified. */
  lemma LatestRefIsQualified(e: Entry)
    ensures IsQualified(LatestRef(e))
  {
    var ref := LatestRef(e);
    assert ref[|e.registry| + 1 + |e.repository|] == ':';
  }

  /** Resolution is idempotent: a resolved reference resolves to itself, under any index. */
  lemma ResolveIdempotent(token: string, index: map<string, Entry>, other: map<string, Entry>)
    requires Resolve(token, index).Some?
    ensures Resolve(Resolve(token, index).value, other) == Resolve(token, index)
  {
    if !IsQualified(token) {
      LatestRefIsQualified(index[token]);
    }
  }
}
