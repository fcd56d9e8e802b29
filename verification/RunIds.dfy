/** Run identifiers. A sub-agent run id is its parent's id, a marker and a unique suffix, so a
    nested id carries several markers; the server cuts at the first one. */
module RunIds {
  import opened Wrappers
  import opened Events

  const MARKER := ":subagent:"

  predicate MarkerAt(id: RunId, k: nat) {
    k + |MARKER| <= |id| && id[k..k + |MARKER|] == MARKER
  }

  /** The first position at or after `i` where the marker stands. */
  function FindMarker(id: RunId, i: nat): (at: Option<nat>)
    ensures at.Some? ==> i <= at.value && MarkerAt(id, at.value)
    ensures at.Some? ==> forall k: nat :: i <= k < at.value ==> !MarkerAt(id, k)
    ensures at.None? ==> forall k: nat :: i <= k ==> !MarkerAt(id, k)
    decreases |id| - i
  {
    if i + |MARKER| > |id| then None
    else if MarkerAt(id, i) then Some(i)
    else FindMarker(id, i + 1)
  }

  /** What precedes the first marker, if there is one. */
  function SubagentParentRunId(id: RunId): Option<RunId> {
    var at := FindMarker(id, 0);
    if at.Some? then Some(id[..at.value]) else None
  }

  function ChildRunId(parent: RunId, suffix: string): RunId {
    parent + MARKER + suffix
  }

  /** The top-level run an id belongs to. */
  function Root(id: RunId): RunId {
    var parent := SubagentParentRunId(id);
    if parent.Some? then parent.value else id
  }

  /** A top-level id: no marker in it and none completed by the marker that follows it. */
  predicate IsRoot(id: RunId) {
    SubagentParentRunId(id).None? && !(":subagent" <= id[if |id| >= 9 then |id| - 9 else 0..])
  }

  /** However deep a sub-agent is nested, its id is cut back to its top-level run. */
  lemma {:induction false} ChildHasRootOfParent(parent: RunId, suffix: string)
    requires IsRoot(Root(parent))
    ensures SubagentParentRunId(ChildRunId(parent, suffix)) == Some(Root(parent))
  {
    var child := ChildRunId(parent, suffix);
    var root := Root(parent);
    assert parent[..|root|] == root;
    assert child[..|root|] == root;
    assert child[|root|..|root| + |MARKER|] == MARKER;
    assert MarkerAt(child, |root|);
    forall k: nat | k < |root|
      ensures !MarkerAt(child, k)
    {
      MarkerCannotStraddle(root, child, k);
    }
  }

  lemma MarkerCannotStraddle(root: RunId, child: RunId, k: nat)
    requires IsRoot(root) && k < |root| && MarkerAt(child, |root|) && child[..|root|] == root
    ensures !MarkerAt(child, k)
  {
    var d := |root| - k;
    if k + 10 <= |child| {
      var here := child[k..k + 10];
      if d >= 10 {
        assert here == root[k..k + 10] && !MarkerAt(root, k);
      } else if d < 9 {
        assert here[d] == child[|root|] == child[|root|..|root| + 10][0] == ':' != MARKER[d];
      } else {
        assert here[..9] == root[k..] != ":subagent";
        assert MARKER[..9] == ":subagent";
      }
    }
  }
}
