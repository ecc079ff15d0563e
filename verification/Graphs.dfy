/** Reachability in the stored node graph. */
module Graphs {
  import opened ByteStrings
  import opened Nodes
  import opened TreeStore

  /** Each step of `p` goes from a stored node to one of its children. The last ID need not be stored. */
  ghost predicate IsPath(nodes: map<Bytes, Node>, p: seq<Bytes>) {
    p != [] && forall i :: 0 <= i < |p| - 1 ==> p[i] in nodes && p[i + 1] in nodes[p[i]].children
  }

  ghost predicate Leads(nodes: map<Bytes, Node>, p: seq<Bytes>, a: Bytes, b: Bytes) {
    IsPath(nodes, p) && p[0] == a && p[|p| - 1] == b
  }

  ghost predicate Reaches(nodes: map<Bytes, Node>, a: Bytes, b: Bytes) {
    exists p :: Leads(nodes, p, a, b)
  }

  /** The node IDs the refs point at. */
  function Roots(meta: Meta): set<Bytes> {
    set name | name in meta.refs && meta.refs[name].nodeId != [] :: meta.refs[name].nodeId
  }

  ghost predicate Reachable(meta: Meta, id: Bytes) {
    exists r :: r in Roots(meta) && Reaches(meta.nodes, r, id)
  }

  ghost predicate ReachableBlob(meta: Meta, h: Bytes) {
    exists id :: Reachable(meta, id) && id in meta.nodes && h in meta.nodes[id].blobs
  }

  /** What is reachable lies at the end of a path from some ref that points somewhere, */
  lemma PathToReachable(meta: Meta, id: Bytes) returns (name: Bytes, p: seq<Bytes>)
    requires Reachable(meta, id)
    ensures name in meta.refs && meta.refs[name].nodeId != []
    ensures p != [] && p[0] == meta.refs[name].nodeId && p[|p| - 1] == id
    ensures forall i :: 0 <= i < |p| - 1 ==> p[i] in meta.nodes && p[i + 1] in meta.nodes[p[i]].children
  {
    var r :| r in Roots(meta) && Reaches(meta.nodes, r, id);
    name :| name in meta.refs && meta.refs[name].nodeId == r && r != [];
    p :| Leads(meta.nodes, p, r, id);
  }

  /** and whatever lies at the end of one is reachable. */
  lemma PathReaches(meta: Meta, name: Bytes, p: seq<Bytes>)
    requires name in meta.refs && meta.refs[name].nodeId != [] && p != [] && p[0] == meta.refs[name].nodeId
    requires forall i :: 0 <= i < |p| - 1 ==> p[i] in meta.nodes && p[i + 1] in meta.nodes[p[i]].children
    ensures Reachable(meta, p[|p| - 1])
  {
    assert Leads(meta.nodes, p, p[0], p[|p| - 1]) && p[0] in Roots(meta);
  }

  /** Stored and complete: everything that members refer to is present, children within the set. */
  ghost predicate Whole(meta: Meta, ids: set<Bytes>) {
    forall id :: id in ids ==>
      && id in meta.nodes
      && (forall c :: c in meta.nodes[id].children ==> c in ids)
      && (forall h :: h in meta.nodes[id].blobs ==> h in meta.manifests)
  }

  /** The whole closure of `id` is present: every node reached from it, and a manifest for each of their blobs. */
  ghost predicate ClosurePresent(meta: Meta, id: Bytes) {
    forall x :: Reaches(meta.nodes, id, x) ==>
      x in meta.nodes && forall h :: h in meta.nodes[x].blobs ==> h in meta.manifests
  }

  ghost predicate ChildClosed(nodes: map<Bytes, Node>, ids: set<Bytes>) {
    forall id :: id in ids ==> id in nodes && forall c :: c in nodes[id].children ==> c in ids
  }

  lemma {:induction false} PathStaysInside(nodes: map<Bytes, Node>, ids: set<Bytes>, p: seq<Bytes>)
    requires ChildClosed(nodes, ids) && IsPath(nodes, p) && p[0] in ids
    ensures p[|p| - 1] in ids
  {
    if |p| > 1 {
      assert p[1] in nodes[p[0]].children;
      PathStaysInside(nodes, ids, p[1..]);
    }
  }

  lemma ReachesInside(nodes: map<Bytes, Node>, ids: set<Bytes>, a: Bytes)
    requires ChildClosed(nodes, ids) && a in ids
    ensures forall b :: Reaches(nodes, a, b) ==> b in ids
  {
    forall b | Reaches(nodes, a, b) ensures b in ids {
      var p :| Leads(nodes, p, a, b);
      PathStaysInside(nodes, ids, p);
    }
  }

  lemma ReachesSelf(nodes: map<Bytes, Node>, a: Bytes)
    ensures Reaches(nodes, a, a)
  {
    assert Leads(nodes, [a], a, a);
  }

  lemma ReachesChild(nodes: map<Bytes, Node>, a: Bytes, b: Bytes, c: Bytes)
    requires Reaches(nodes, a, b) && b in nodes && c in nodes[b].children
    ensures Reaches(nodes, a, c)
  {
    var p :| Leads(nodes, p, a, b);
    assert Leads(nodes, p + [c], a, c);
  }

  lemma ReachesThroughChild(nodes: map<Bytes, Node>, a: Bytes, c: Bytes, b: Bytes)
    requires a in nodes && c in nodes[a].children && Reaches(nodes, c, b)
    ensures Reaches(nodes, a, b)
  {
    var p :| Leads(nodes, p, c, b);
    assert Leads(nodes, [a] + p, a, b);
  }

  /** A closure is present exactly when some whole set holds its root. */
  lemma ClosurePresentIffWhole(meta: Meta, id: Bytes)
    ensures ClosurePresent(meta, id) <==> exists ids :: Whole(meta, ids) && id in ids
  {
    if ids :| Whole(meta, ids) && id in ids {
      ReachesInside(meta.nodes, ids, id);
    }
    if ClosurePresent(meta, id) {
      var ids := set x | x in meta.nodes && Reaches(meta.nodes, id, x);
      ReachesSelf(meta.nodes, id);
      forall x, c | x in ids && c in meta.nodes[x].children ensures c in ids {
        ReachesChild(meta.nodes, id, x, c);
      }
      assert Whole(meta, ids) && id in ids;
    }
  }
}
