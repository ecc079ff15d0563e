/** The tree's operations, run one at a time on the two stores. */
module Trees {
  import opened ByteStrings
  import opened Results
  import opened Sorting
  import opened Scans
  import opened Nodes
  import opened TreeStore
  import opened Graphs
  import opened TreeGarbage

  /** What one `PlanGC` call has marked so far. */
  class Marks {
    var nodes: set<Bytes>
    var blobs: set<Bytes>

    constructor ()
      ensures nodes == {} && blobs == {}
    {
      nodes, blobs := {}, {};
    }
  }

  method KeysInOrder(s: set<Bytes>) returns (r: seq<Bytes>)
    ensures r == Ascending(s)
  {
    r := [];
    var todo := s;
    while todo != {}
      invariant todo <= s && Distinct(r)
      invariant forall k :: k in r <==> k in s && k !in todo
      decreases todo
    {
      var k :| k in todo;
      todo := todo - {k};
      r := r + [k];
    }
    SortDistinct(r);
    r := SortStrings(r);
    OrderedUnique(r, s, false);
  }

  /** What walking from `id` did to the marks: everything new is reached from `id`, loads, and except for `open` nodes
      is accounted for. */
  ghost predicate Walked(hs: Hasher, meta: Meta, id: Bytes, nodes: set<Bytes>, blobs: set<Bytes>,
                         nodes': set<Bytes>, blobs': set<Bytes>, open: set<Bytes>) {
    && nodes <= nodes' && blobs <= blobs'
    && (forall x :: x in nodes' && x !in nodes ==> Reaches(meta.nodes, id, x) && GetNode(hs, meta, x).Ok?)
    && (forall x :: x in nodes' && x !in nodes && x !in open ==> Accounted(meta, x, nodes', blobs'))
    && (forall h :: h in blobs' && h !in blobs ==> BlobOf(meta, nodes' - nodes, h))
  }

  lemma WalkedThen(hs: Hasher, meta: Meta, id: Bytes, c: Bytes, n0: set<Bytes>, b0: set<Bytes>,
                   n1: set<Bytes>, b1: set<Bytes>, n2: set<Bytes>, b2: set<Bytes>)
    requires Walked(hs, meta, id, n0, b0, n1, b1, {id}) && Walked(hs, meta, c, n1, b1, n2, b2, {})
    requires id in meta.nodes && c in meta.nodes[id].children
    ensures Walked(hs, meta, id, n0, b0, n2, b2, {id})
  {
    forall x | Reaches(meta.nodes, c, x) ensures Reaches(meta.nodes, id, x) {
      ReachesThroughChild(meta.nodes, id, c, x);
    }
    forall h | h in b2 && h !in b0 ensures BlobOf(meta, n2 - n0, h) {
      var some := if h in b1 then n1 - n0 else n2 - n1;
      var x :| x in some && x in meta.nodes && h in meta.nodes[x].blobs;
      assert x in n2 - n0;
    }
  }

  lemma FailsThroughChild(hs: Hasher, meta: Meta, id: Bytes, c: Bytes)
    requires id in meta.nodes && c in meta.nodes[id].children
    requires exists x :: Reaches(meta.nodes, c, x) && GetNode(hs, meta, x).Err?
    ensures exists x :: Reaches(meta.nodes, id, x) && GetNode(hs, meta, x).Err?
  {
    var x :| Reaches(meta.nodes, c, x) && GetNode(hs, meta, x).Err?;
    ReachesThroughChild(meta.nodes, id, c, x);
  }

  /** Marking a loaded node with its own blobs. */
  lemma WalkBegins(hs: Hasher, meta: Meta, id: Bytes, nodes: set<Bytes>, blobs: set<Bytes>)
    requires GetNode(hs, meta, id).Ok? && id !in nodes
    ensures Walked(hs, meta, id, nodes, blobs, nodes + {id}, blobs + Members(meta.nodes[id].blobs), {id})
  {
    ReachesSelf(meta.nodes, id);
    forall h | h in Members(meta.nodes[id].blobs) ensures BlobOf(meta, nodes + {id} - nodes, h) {
      assert id in nodes + {id} - nodes;
    }
  }

  lemma MarkedThen(hs: Hasher, meta: Meta, root: Bytes, n0: set<Bytes>, b0: set<Bytes>, n1: set<Bytes>, b1: set<Bytes>)
    requires Marked(hs, meta, n0, b0) && root in Roots(meta) && Walked(hs, meta, root, n0, b0, n1, b1, {})
    ensures Marked(hs, meta, n1, b1)
  {
    forall x | x in n1 ensures Reachable(meta, x) && GetNode(hs, meta, x).Ok? && Accounted(meta, x, n1, b1) {
      assert x in n0 ==> Accounted(meta, x, n0, b0);
    }
    forall h | h in b1 ensures BlobOf(meta, n1, h) {
      var some := if h in b0 then n0 else n1 - n0;
      var x :| x in some && x in meta.nodes && h in meta.nodes[x].blobs;
      assert x in n1;
    }
  }

  /** All staging keys in use have serials below `serial`. */
  ghost predicate SerialsBelow(meta: Meta, bodies: Bodies, serial: nat) {
    && (forall k :: k in bodies && k.Staged? ==> k.serial < serial)
    && (forall h :: h in meta.manifests && BodyKey(meta.manifests[h]).Staged? ==>
          BodyKey(meta.manifests[h]).serial < serial)
  }

  /** The roots that the refs `names` point at are marked. */
  ghost predicate RootsIn(meta: Meta, names: seq<Bytes>, nodes: set<Bytes>) {
    forall name :: name in names && name in meta.refs && meta.refs[name].nodeId != [] ==>
                     meta.refs[name].nodeId in nodes
  }

  lemma OneMoreRoot(meta: Meta, names: seq<Bytes>, i: nat, before: set<Bytes>, nodes: set<Bytes>)
    requires i < |names| && RootsIn(meta, names[..i], before) && before <= nodes
    requires names[i] in meta.refs && meta.refs[names[i]].nodeId != [] ==> meta.refs[names[i]].nodeId in nodes
    ensures RootsIn(meta, names[..i + 1], nodes)
  {
    assert names[..i + 1] == names[..i] + [names[i]];
  }

  lemma RootsMarked(meta: Meta, names: seq<Bytes>, nodes: set<Bytes>)
    requires names == Ascending(meta.refs.Keys) && RootsIn(meta, names[..|names|], nodes)
    ensures Roots(meta) <= nodes
  {
    AscendingSorts(meta.refs.Keys);
    assert names[..|names|] == names;
  }

  /** Storing a body under a new key keeps manifests and bodies in agreement, and so does publishing it. */
  lemma PutKeepsMatch(hs: Hasher, meta: Meta, bodies: Bodies, serial: nat, body: Bytes, key: Bytes)
    requires Staged(serial) !in bodies
    ensures var stored := bodies[Staged(serial) := body];
            && stored - {Staged(serial)} == bodies
            && (BodiesMatch(hs, meta, bodies) ==>
                  && BodiesMatch(hs, meta, stored)
                  && BodiesMatch(hs, Publish(meta, NewManifest(hs.sum(body), |body|, key, serial)).1, stored))
  {
  }

  class Tree {
    const hs: Hasher
    /** The length of a node's JSON record. */
    const recordSize: Node -> nat
    var meta: Meta
    var bodies: Bodies
    /** Source of staging keys that were never used before. */
    var serial: nat

    constructor (sha: Digest, recordSize: Node -> nat)
      ensures hs == HasherOf(sha) && this.recordSize == recordSize && Valid()
      ensures meta == Meta(map[], map[], map[], map[]) && bodies == map[]
    {
      hs, this.recordSize := HasherOf(sha), recordSize;
      meta, bodies, serial := Meta(map[], map[], map[], map[]), map[], 0;
    }

    ghost predicate Valid()
      reads this
    {
      Canonically(hs) && SerialsBelow(meta, bodies, serial)
    }

    /** Uploads under a unique key, then publishes. `commits` is false when the publishing transaction fails, `drops`
        when deleting the own upload does; that failure is ignored. */
    method PutBlob(wanted: Bytes, body: Bytes, size: int, key: Bytes, commits: bool, drops: bool)
      returns (r: Result<Manifest, Error>)
      requires Valid()
      modifies this
      ensures Valid()
      ensures r.Ok? <==> (size < 0 || |body| == size) && (wanted == [] || wanted == hs.sum(body)) && commits
      ensures r.Err? ==> meta == old(meta)
      ensures r.Err? ==> r.error == if size >= 0 && |body| != size then SizeMismatch
                                    else if wanted != [] && wanted != hs.sum(body) then HashMismatch
                                    else Unavailable
      ensures r.Ok? && hs.sum(body) in old(meta).manifests ==>
                r.value == old(meta).manifests[hs.sum(body)] && meta == old(meta)
      ensures r.Ok? && hs.sum(body) !in old(meta).manifests ==>
                var h := hs.sum(body);
                && r.value == Manifest(if key == [] then h else key, h, |body|, Some(Staged(old(serial))))
                && meta == old(meta).(manifests := old(meta).manifests[h := r.value])
      ensures r.Ok? ==> (r.value, meta) == Publish(old(meta), NewManifest(hs.sum(body), |body|, key, old(serial)))
      ensures r.Ok? && hs.sum(body) !in old(meta).manifests ==> bodies == old(bodies)[Staged(old(serial)) := body]
      ensures r.Err? || hs.sum(body) in old(meta).manifests ==>
                bodies == old(bodies) || (!drops && bodies == old(bodies)[Staged(old(serial)) := body])
      ensures BodiesMatch(hs, old(meta), old(bodies)) ==> BodiesMatch(hs, meta, bodies)
    {
      PutKeepsMatch(hs, meta, bodies, serial, body, key);
      var length := size;
      if size >= 0 && |body| != size {
        return Err(SizeMismatch);
      }
      var staging := Staged(serial);
      serial := serial + 1;
      bodies := bodies[staging := body];
      var hash := hs.sum(body);
      if wanted != [] && hash != wanted {
        Discard(staging, drops);
        return Err(HashMismatch);
      }
      if length < 0 {
        length := |bodies[staging]|;
      }
      var m := Manifest(key, hash, length, Some(staging));
      if m.key == [] {
        m := m.(key := hash);
      }
      if !commits {
        Discard(staging, drops);
        return Err(Unavailable);
      }
      m := PublishManifest(m, staging, drops);
      return Ok(m);
    }

    /** The publishing transaction, and the deletion of an upload that turns out to be a duplicate. */
    method PublishManifest(own: Manifest, staging: ObjectKey, drops: bool) returns (m: Manifest)
      requires own.objectKey == Some(staging)
      modifies this`meta, this`bodies
      ensures (m, meta) == Publish(old(meta), own)
      ensures own.hash in old(meta).manifests ==> m == old(meta).manifests[own.hash] && meta == old(meta)
      ensures own.hash !in old(meta).manifests ==>
                m == own && meta == old(meta).(manifests := old(meta).manifests[own.hash := own])
      ensures bodies == if own.hash in old(meta).manifests && m.objectKey != Some(staging) && drops
                        then old(bodies) - {staging} else old(bodies)
    {
      m := own;
      var duplicate := own.hash in meta.manifests;
      if duplicate {
        m := meta.manifests[own.hash];
      } else {
        meta := meta.(manifests := meta.manifests[own.hash := m]);
      }
      if duplicate && m.objectKey != Some(staging) {
        Discard(staging, drops);
      }
    }

    /** Deletes the own upload, if the blob store does. */
    method Discard(staging: ObjectKey, drops: bool)
      modifies this`bodies
      ensures bodies == if drops then old(bodies) - {staging} else old(bodies)
    {
      if drops {
        bodies := bodies - {staging};
      }
    }

    /** Reads `[start, end)` of a blob; a full read is checked against the hash. */
    method GetBlob(hash: Bytes, start: int, end: int) returns (r: Result<Bytes, Error>)
      ensures r.Ok? ==> hash in meta.manifests
      ensures r.Ok? ==>
                var m := meta.manifests[hash];
                var stop := if end < 0 || end > m.size then m.size else end;
                var k := if m.objectKey.Some? then m.objectKey.value else ByHash(hash);
                0 <= start <= stop && k in bodies && stop <= |bodies[k]| && r.value == bodies[k][start..stop]
      ensures r.Ok? && start == 0 && (end < 0 || end >= meta.manifests[hash].size) ==>
                hs.sum(r.value) == hash && |r.value| == meta.manifests[hash].size
      ensures BodiesMatch(hs, meta, bodies) && hash in meta.manifests ==>
                var m := meta.manifests[hash];
                var stop := if end < 0 || end > m.size then m.size else end;
                && (r.Ok? <==> 0 <= start <= stop)
                && (r.Ok? ==> r.value == bodies[BodyKey(m)][start..stop])
    {
      if hash !in meta.manifests {
        return Err(NotFound);
      }
      var m := meta.manifests[hash];
      var stop := end;
      if stop < 0 || stop > m.size {
        stop := m.size;
      }
      if start < 0 || start > stop {
        return Err(BadRange);
      }
      var objectKey := if m.objectKey.Some? then m.objectKey.value else ByHash(hash);
      if objectKey !in bodies {
        return Err(NotFound);
      }
      var body := bodies[objectKey];
      if stop > |body| {
        return Err(SizeMismatch);
      }
      var data := body[start..stop];
      if start == 0 && stop == m.size {
        assert |body| == m.size ==> data == body;
        if hs.sum(data) != hash {
          return Err(HashMismatch);
        }
      }
      return Ok(data);
    }

    method PutNode(n: Node) returns (r: Result<Bytes, Error>)
      requires Valid()
      modifies this`meta
      ensures Valid() && bodies == old(bodies)
      ensures r.Ok? <==> recordSize(Normal(n)) <= 0x10_0000
      ensures r.Ok? ==> r.value == hs.id(n) && meta == StoreNode(hs, old(meta), n)
      ensures r.Ok? ==>
                && r.value == hs.sum(Encoded(n)) && r.value in meta.nodes
                && meta == old(meta).(nodes := old(meta).nodes[r.value := meta.nodes[r.value]])
      ensures r.Ok? ==>
                var stored := meta.nodes[r.value];
                && stored.name == n.name && stored.leaf == n.leaf
                && multiset(stored.blobs) == multiset(n.blobs) && Sorted(AtMost, stored.blobs)
                && multiset(stored.children) == multiset(n.children) && Sorted(AtMost, stored.children)
      ensures r.Err? ==> r.error == TooLarge && meta == old(meta)
    {
      NormalKeepsEncoding(n);
      var stored := n.(blobs := SortStrings(n.blobs), children := SortStrings(n.children));
      if recordSize(stored) > 0x10_0000 {
        return Err(TooLarge);
      }
      var buf := Canonical(n);
      var id := hs.sum(buf);
      assert CanonicalAt(hs, n);
      meta := meta.(nodes := meta.nodes[id := stored]);
      return Ok(id);
    }

    method LoadNode(id: Bytes) returns (r: Result<Node, Error>)
      requires Valid()
      ensures r == GetNode(hs, meta, id)
      ensures r.Ok? <==> id in meta.nodes && hs.sum(Encoded(meta.nodes[id])) == id
      ensures r.Ok? ==> r.value == meta.nodes[id]
      ensures r.Err? ==> r.error == if id in meta.nodes then BadAddress else NotFound
    {
      if id !in meta.nodes {
        return Err(NotFound);
      }
      var buf := Canonical(meta.nodes[id]);
      assert CanonicalAt(hs, meta.nodes[id]);
      if hs.sum(buf) != id {
        return Err(BadAddress);
      }
      return Ok(meta.nodes[id]);
    }

    /** Moves a ref only when the lease token and the ref's version are both current and the node is stored. */
    method CompareAndSwapRefFenced(lease: Bytes, token: nat, name: Bytes, nodeId: Bytes, expected: nat)
      returns (r: Result<Ref, Error>)
      modifies this`meta
      ensures (r, meta) == SwapRefFenced(old(meta), lease, token, name, nodeId, expected)
      ensures r.Ok? <==>
                && lease in old(meta).leases && old(meta).leases[lease] == token && nodeId in old(meta).nodes
                && (if name in old(meta).refs then old(meta).refs[name].version else 0) == expected
      ensures r.Ok? ==>
                && meta == old(meta).(refs := old(meta).refs[name := r.value])
                && r.value.nodeId == nodeId && r.value.version == expected + 1
                && r.value.name == if name in old(meta).refs then old(meta).refs[name].name else name
      ensures r.Err? ==> meta == old(meta)
      ensures r.Err? ==> r.error == if !(lease in old(meta).leases && old(meta).leases[lease] == token) then Fenced
                                    else if nodeId !in old(meta).nodes then NotFound
                                    else RefConflict
    {
      if !(lease in meta.leases && meta.leases[lease] == token) {
        return Err(Fenced);
      }
      if nodeId !in meta.nodes {
        return Err(NotFound);
      }
      var ref := Ref(name, [], 0);
      if name in meta.refs {
        ref := meta.refs[name];
      }
      if ref.version != expected {
        return Err(RefConflict);
      }
      ref := ref.(nodeId := nodeId, version := ref.version + 1);
      meta := meta.(refs := meta.refs[name := ref]);
      return Ok(ref);
    }

    method DeleteRefFenced(lease: Bytes, token: nat, name: Bytes, expected: nat) returns (r: Result<(), Error>)
      modifies this`meta
      ensures (r, meta) == DropRefFenced(old(meta), lease, token, name, expected)
      ensures r.Ok? <==>
                && lease in old(meta).leases && old(meta).leases[lease] == token
                && name in old(meta).refs && old(meta).refs[name].version == expected
      ensures r.Ok? ==> name !in meta.refs && meta == old(meta).(refs := meta.refs)
                        && forall other :: other != name && other in old(meta).refs ==>
                             other in meta.refs && meta.refs[other] == old(meta).refs[other]
      ensures r.Err? ==> meta == old(meta)
      ensures r.Err? ==> r.error == if !(lease in old(meta).leases && old(meta).leases[lease] == token) then Fenced
                                    else if name !in old(meta).refs then NotFound
                                    else RefConflict
    {
      if !(lease in meta.leases && meta.leases[lease] == token) {
        return Err(Fenced);
      }
      if name !in meta.refs {
        return Err(NotFound);
      }
      if meta.refs[name].version != expected {
        return Err(RefConflict);
      }
      meta := meta.(refs := meta.refs - {name});
      return Ok(());
    }

    method AcquireLease(name: Bytes) returns (token: nat)
      modifies this`meta
      ensures (token, meta) == Acquire(old(meta), name)
      ensures meta == old(meta).(leases := old(meta).leases[name := token])
      ensures token == if name in old(meta).leases then old(meta).leases[name] + 1 else 1
    {
      token := 0;
      if name in meta.leases {
        token := meta.leases[name];
      }
      token := token + 1;
      meta := meta.(leases := meta.leases[name := token]);
    }

    /** Removes the lease's record, and with it the count of its tokens. */
    method ReleaseLease(name: Bytes, token: nat) returns (r: Result<(), Error>)
      modifies this`meta
      ensures (r, meta) == Release(old(meta), name, token)
      ensures r.Ok? <==> name in old(meta).leases && old(meta).leases[name] == token
      ensures r.Ok? ==> meta == old(meta).(leases := old(meta).leases - {name})
      ensures r.Err? ==> r.error == Fenced && meta == old(meta)
    {
      if !(name in meta.leases && meta.leases[name] == token) {
        return Err(Fenced);
      }
      meta := meta.(leases := meta.leases - {name});
      return Ok(());
    }

    // ---- PlanGC ----

    /** The recursive walk: loads a node not yet marked, marks it and its blobs, then walks its children in order. */
    method Walk(id: Bytes, marks: Marks) returns (ok: bool)
      requires Valid()
      modifies marks
      ensures old(marks.nodes) <= marks.nodes
      ensures ok ==> id in marks.nodes
                     && Walked(hs, meta, id, old(marks.nodes), old(marks.blobs), marks.nodes, marks.blobs, {})
      ensures !ok ==> exists x :: Reaches(meta.nodes, id, x) && GetNode(hs, meta, x).Err?
      decreases meta.nodes.Keys - marks.nodes
    {
      if id in marks.nodes {
        return true;
      }
      ReachesSelf(meta.nodes, id);
      var n := LoadNode(id);
      if n.Err? {
        return false;
      }
      ghost var n0, b0 := marks.nodes, marks.blobs;
      WalkBegins(hs, meta, id, n0, b0);
      marks.nodes := marks.nodes + {id};
      marks.blobs := marks.blobs + Members(n.value.blobs);
      var children := n.value.children;
      for i := 0 to |children|
        invariant old(marks.nodes) <= marks.nodes && id in marks.nodes && Members(n.value.blobs) <= marks.blobs
        invariant forall j :: 0 <= j < i ==> children[j] in marks.nodes
        invariant Walked(hs, meta, id, n0, b0, marks.nodes, marks.blobs, {id})
      {
        ghost var n1, b1 := marks.nodes, marks.blobs;
        ok := Walk(children[i], marks);
        if !ok {
          FailsThroughChild(hs, meta, id, children[i]);
          return false;
        }
        WalkedThen(hs, meta, id, children[i], n0, b0, n1, b1, marks.nodes, marks.blobs);
      }
      assert Accounted(meta, id, marks.nodes, marks.blobs);
      return true;
    }

    /** Walks from one ref, unless it points nowhere. */
    method MarkRef(name: Bytes, marks: Marks) returns (ok: bool)
      requires Valid() && name in meta.refs && Marked(hs, meta, marks.nodes, marks.blobs)
      modifies marks
      ensures old(marks.nodes) <= marks.nodes
      ensures ok ==> Marked(hs, meta, marks.nodes, marks.blobs)
                     && (meta.refs[name].nodeId != [] ==> meta.refs[name].nodeId in marks.nodes)
      ensures !ok ==> exists x :: Reachable(meta, x) && GetNode(hs, meta, x).Err?
    {
      var root := meta.refs[name].nodeId;
      if root == [] {
        return true;
      }
      ghost var n0, b0 := marks.nodes, marks.blobs;
      assert root in Roots(meta);
      ok := Walk(root, marks);
      if ok {
        MarkedThen(hs, meta, root, n0, b0, marks.nodes, marks.blobs);
      } else {
        ghost var x :| Reaches(meta.nodes, root, x) && GetNode(hs, meta, x).Err?;
        assert Reachable(meta, x);
      }
    }

    /** Walks from every ref. */
    method MarkRefs(marks: Marks) returns (ok: bool)
      requires Valid() && marks.nodes == {} && marks.blobs == {}
      modifies marks
      ensures ok ==> Marked(hs, meta, marks.nodes, marks.blobs) && Roots(meta) <= marks.nodes
      ensures !ok ==> exists x :: Reachable(meta, x) && GetNode(hs, meta, x).Err?
    {
      var names := KeysInOrder(meta.refs.Keys);
      AscendingSorts(meta.refs.Keys);
      for i := 0 to |names|
        invariant Marked(hs, meta, marks.nodes, marks.blobs) && RootsIn(meta, names[..i], marks.nodes)
      {
        assert names[i] in names;
        ghost var before := marks.nodes;
        ok := MarkRef(names[i], marks);
        if !ok {
          return false;
        }
        OneMoreRoot(meta, names, i, before, marks.nodes);
      }
      RootsMarked(meta, names, marks.nodes);
      return true;
    }

    /** The plan is exact, and there is one exactly when every reachable node can be loaded; cycles and sharing in the
        stored graph do no harm. */
    method PlanGC() returns (r: Result<Plan, Error>)
      requires Valid()
      ensures r.Ok? <==> Walkable(hs, meta)
      ensures r.Ok? ==> r.value == Garbage(meta)
      ensures r.Ok? ==>
                && StrictlyAscending(r.value.nodes) && StrictlyAscending(r.value.blobs)
                && (forall id :: id in r.value.nodes <==> id in meta.nodes && !Reachable(meta, id))
                && (forall h :: h in r.value.blobs <==> h in meta.manifests && !ReachableBlob(meta, h))
                && (forall h :: h in r.value.objectKeys <==> h in r.value.blobs && meta.manifests[h].objectKey.Some?)
                && (forall h :: h in r.value.objectKeys ==>
                      Some(r.value.objectKeys[h]) == meta.manifests[h].objectKey)
    {
      var marks := new Marks();
      var ok := MarkRefs(marks);
      if !ok {
        return Err(NotFound);
      }
      AllMarkedIsGarbage(hs, meta, marks.nodes, marks.blobs);
      GarbageInFields(meta);
      var nodes := KeysInOrder(meta.nodes.Keys - marks.nodes);
      var blobs := KeysInOrder(meta.manifests.Keys - marks.blobs);
      return Ok(Plan(nodes, blobs, ObjectKeys(meta, marks.blobs)));
    }

    // ---- Sweeps ----

    /** The first loop of `SweepGC`. */
    method SweepNodes(nodes: seq<Bytes>, outage: nat) returns (ok: bool)
      modifies this`meta
      ensures ok <==> outage >= |nodes|
      ensures ok ==> meta == Without(old(meta), Members(nodes), {})
      ensures ok ==> meta == old(meta).(nodes := old(meta).nodes - (set id | id in nodes))
      ensures exists some :: some <= Members(nodes) && meta == Without(old(meta), some, {})
    {
      assert meta == Without(meta, {}, {});
      for i := 0 to |nodes|
        invariant i <= outage && Members(nodes[..i]) <= Members(nodes)
        invariant meta == Without(old(meta), Members(nodes[..i]), {})
      {
        if i == outage {
          return false;
        }
        meta := meta.(nodes := meta.nodes - {nodes[i]});
        MembersGrow(nodes, i);
        WithoutMore(old(meta), Members(nodes[..i]), {nodes[i]}, {}, {});
      }
      assert nodes[..|nodes|] == nodes;
      return true;
    }

    /** The second loop of `SweepGC`: for each blob its manifest, then its body. */
    method SweepBlobs(plan: Plan, outage: nat) returns (ok: bool)
      requires plan.nodes == []
      modifies this`meta, this`bodies
      ensures ok <==> outage >= 2 * |plan.blobs|
      ensures ok ==> meta == Without(old(meta), {}, Members(plan.blobs))
                     && bodies == old(bodies) - DeletedKeys(old(meta), plan, plan.blobs)
      ensures PartSwept(old(meta), old(bodies), plan, meta, bodies)
    {
      ghost var meta0, bodies0 := meta, bodies;
      ghost var keys := {};
      SweepBegins(meta, bodies, plan);
      for i := 0 to |plan.blobs|
        invariant 2 * i <= outage && SweptTo(meta0, bodies0, plan, meta, bodies, i, keys)
      {
        if 2 * i == outage {
          return false;
        }
        var h := plan.blobs[i];
        var objectKey := if h in plan.objectKeys then plan.objectKeys[h] else BodyObjectKey(meta, h);
        SweptOne(meta0, bodies0, plan, meta, bodies, i, keys);
        meta := meta.(manifests := meta.manifests - {h});
        if 2 * i + 1 == outage {
          return false;
        }
        bodies := bodies - {objectKey};
        keys := keys + {objectKey};
      }
      assert plan.blobs[..|plan.blobs|] == plan.blobs;
      return true;
    }

    /** The unfenced sweep. `outage` store calls succeed, then one fails and the sweep stops. */
    method SweepGC(plan: Plan, outage: nat) returns (ok: bool)
      modifies this`meta, this`bodies
      ensures ok <==> outage >= |plan.nodes| + 2 * |plan.blobs|
      ensures ok ==> meta == Without(old(meta), Members(plan.nodes), Members(plan.blobs))
                     && bodies == old(bodies) - DeletedKeys(old(meta), plan, plan.blobs)
      ensures ok ==>
                meta == old(meta).(nodes := old(meta).nodes - (set id | id in plan.nodes),
                                   manifests := old(meta).manifests - (set h | h in plan.blobs))
      ensures ok && Distinct(plan.blobs) ==>
                bodies == old(bodies) - set h | h in plan.blobs ::
                                          if h in plan.objectKeys then plan.objectKeys[h]
                                          else if h in old(meta).manifests && old(meta).manifests[h].objectKey.Some?
                                          then old(meta).manifests[h].objectKey.value
                                          else ByHash(h)
      ensures PartSwept(old(meta), old(bodies), plan, meta, bodies)
      ensures ok && Current(old(meta), plan) ==> FullySwept(old(meta), old(bodies), plan, meta, bodies)
    {
      ghost var meta0, bodies0 := meta, bodies;
      ok := SweepNodes(plan.nodes, outage);
      ghost var some :| some <= Members(plan.nodes) && meta == Without(meta0, some, {});
      if !ok {
        assert Part(meta0, bodies0, plan, meta, bodies, some, {}, {});
        return false;
      }
      ghost var meta1 := meta;
      ok := SweepBlobs(plan.(nodes := []), outage - |plan.nodes|);
      PartJoin(meta0, meta1, bodies0, plan, meta, bodies);
      WithoutMore(meta0, Members(plan.nodes), {}, {}, Members(plan.blobs));
      KeysNeedOnlyManifests(meta0, meta1, plan, plan.blobs);
      KeysIgnoreNodes(meta1, plan, plan.blobs);
      if ok && Current(meta0, plan) {
        CurrentKeys(meta0, plan, plan.blobs);
      }
      LookupsInFields(meta0, plan);
    }

    /** The fenced sweep: all metadata in one transaction that checks the token, then the bodies. `outage` body
        deletes succeed, then one fails and the sweep stops. */
    method SweepGCFenced(lease: Bytes, token: nat, plan: Plan, outage: nat) returns (r: Result<(), Error>)
      modifies this`meta, this`bodies
      ensures !(lease in old(meta).leases && old(meta).leases[lease] == token) ==>
                r == Err(Fenced) && meta == old(meta) && bodies == old(bodies)
      ensures meta == SweepFenced(old(meta), lease, token, plan).1
      ensures lease in old(meta).leases && old(meta).leases[lease] == token ==>
                meta == old(meta).(nodes := old(meta).nodes - (set id | id in plan.nodes),
                                   manifests := old(meta).manifests - (set h | h in plan.blobs))
      ensures LeaseHeld(old(meta), lease, token) ==>
                && (r.Ok? <==> outage >= |plan.blobs|)
                && PartSwept(old(meta), old(bodies), plan, meta, bodies)
      ensures r.Ok? ==> bodies == old(bodies) - LookedUp(old(meta), plan, plan.blobs)
      ensures r.Ok? ==>
                bodies == old(bodies) - set h | h in plan.blobs ::
                                          if h in plan.objectKeys then plan.objectKeys[h]
                                          else if h in old(meta).manifests && old(meta).manifests[h].objectKey.Some?
                                          then old(meta).manifests[h].objectKey.value
                                          else ByHash(h)
      ensures r.Ok? && Current(old(meta), plan) ==> FullySwept(old(meta), old(bodies), plan, meta, bodies)
    {
      ghost var meta0, bodies0 := meta, bodies;
      var bodyKeys: map<Bytes, ObjectKey> := map[];
      for i := 0 to |plan.blobs|
        invariant meta == meta0 && bodies == bodies0
        invariant bodyKeys.Keys == Members(plan.blobs[..i])
        invariant forall h :: h in bodyKeys ==> bodyKeys[h] == PlannedKey(meta0, plan, h)
      {
        var h := plan.blobs[i];
        bodyKeys := bodyKeys[h := if h in plan.objectKeys then plan.objectKeys[h] else BodyObjectKey(meta, h)];
        MembersGrow(plan.blobs, i);
      }
      assert plan.blobs[..|plan.blobs|] == plan.blobs;
      if !(lease in meta.leases && meta.leases[lease] == token) {
        return Err(Fenced);
      }
      meta := meta.(nodes := meta.nodes - Members(plan.nodes), manifests := meta.manifests - Members(plan.blobs));
      for i := 0 to |plan.blobs|
        invariant meta == Without(meta0, Members(plan.nodes), Members(plan.blobs)) && i <= outage
        invariant bodies == bodies0 - LookedUp(meta0, plan, plan.blobs[..i])
      {
        if i == outage {
          LookedUpIsPart(meta0, bodies0, plan, i, meta, bodies);
          return Err(Unavailable);
        }
        LookedUpGrows(meta0, plan, plan.blobs, i);
        bodies := bodies - {bodyKeys[plan.blobs[i]]};
      }
      LookupsInFields(meta0, plan);
      LookedUpIsPart(meta0, bodies0, plan, |plan.blobs|, meta, bodies);
      return Ok(());
    }

    // ---- Whole collections ----

    /** Plans, sweeps until a sweep succeeds, and plans again. Sweep `n` stops at its store call `outages[n]`; the last
        one does not stop. With nothing else going on, a store whose graph can be walked ends without garbage, whatever
        the outages. */
    method Collect(outages: seq<nat>) returns (plan: Result<Plan, Error>, again: Result<Plan, Error>)
      requires Valid()
      modifies this`meta, this`bodies
      ensures Valid() && (plan.Ok? <==> Walkable(hs, old(meta)))
      ensures plan.Err? ==> meta == old(meta) && bodies == old(bodies)
      ensures plan.Ok? ==> FullySwept(old(meta), old(bodies), Garbage(old(meta)), meta, bodies)
      ensures plan.Ok? ==>
                && (forall id :: id in meta.nodes <==> id in old(meta).nodes && Reachable(old(meta), id))
                && (forall h :: h in meta.manifests <==> h in old(meta).manifests && ReachableBlob(old(meta), h))
                && meta.refs == old(meta).refs && meta.leases == old(meta).leases
      ensures plan.Ok? && BodiesMatch(hs, old(meta), old(bodies)) ==>
                again == Ok(Plan([], [], map[])) && BodiesMatch(hs, meta, bodies)
    {
      plan := PlanGC();
      if plan.Err? {
        return plan, plan;
      }
      ghost var meta0, bodies0 := meta, bodies;
      FreshPlanIsCurrent(meta0);
      NothingSwept(meta, bodies, plan.value);
      var ok := false;
      for n := 0 to |outages|
        invariant ok ==> FullySwept(meta0, bodies0, plan.value, meta, bodies)
        invariant PartSwept(meta0, bodies0, plan.value, meta, bodies)
      {
        if !ok {
          ok := Retry(plan.value, outages[n], meta0, bodies0);
        }
      }
      if !ok {
        ok := Retry(plan.value, |plan.value.nodes| + 2 * |plan.value.blobs|, meta0, bodies0);
      }
      PartKeepsSerials(meta0, bodies0, plan.value, meta, bodies, serial);
      SweptToTheReachable(meta0, bodies0, meta, bodies);
      again := PlanGC();
      if BodiesMatch(hs, meta0, bodies0) {
        SweepLeavesExactlyTheLive(hs, meta0, bodies0, meta, bodies);
      }
    }

    /** One more sweep with the unchanged plan. */
    method Retry(plan: Plan, outage: nat, ghost meta0: Meta, ghost bodies0: Bodies) returns (ok: bool)
      requires Current(meta0, plan) && PartSwept(meta0, bodies0, plan, meta, bodies)
      modifies this`meta, this`bodies
      ensures ok <==> outage >= |plan.nodes| + 2 * |plan.blobs|
      ensures PartSwept(meta0, bodies0, plan, meta, bodies)
      ensures ok ==> FullySwept(meta0, bodies0, plan, meta, bodies)
    {
      ghost var meta1, bodies1 := meta, bodies;
      PartLeavesCurrent(meta0, bodies0, plan, meta1, bodies1);
      ok := SweepGC(plan, outage);
      PartTwice(meta0, bodies0, plan, meta1, bodies1, meta, bodies);
      if ok {
        RetriedSweepEndsTheSame(meta0, bodies0, plan, meta1, bodies1, meta, bodies);
      }
    }

    /** The same under a lease: with a stale token nothing changes, with the current one all ends as in `Collect`. */
    method CollectFenced(lease: Bytes, token: nat, outages: seq<nat>)
      returns (plan: Result<Plan, Error>, swept: bool, again: Result<Plan, Error>)
      requires Valid()
      modifies this`meta, this`bodies
      ensures Valid() && (plan.Ok? <==> Walkable(hs, old(meta)))
      ensures swept <==> plan.Ok? && LeaseHeld(old(meta), lease, token)
      ensures !swept ==> meta == old(meta) && bodies == old(bodies)
      ensures swept ==> FullySwept(old(meta), old(bodies), Garbage(old(meta)), meta, bodies)
      ensures swept ==>
                && (forall id :: id in meta.nodes <==> id in old(meta).nodes && Reachable(old(meta), id))
                && (forall h :: h in meta.manifests <==> h in old(meta).manifests && ReachableBlob(old(meta), h))
                && meta.refs == old(meta).refs && meta.leases == old(meta).leases
      ensures swept && BodiesMatch(hs, old(meta), old(bodies)) ==>
                again == Ok(Plan([], [], map[])) && BodiesMatch(hs, meta, bodies)
    {
      plan := PlanGC();
      if plan.Err? || !(lease in meta.leases && meta.leases[lease] == token) {
        return plan, false, plan;
      }
      ghost var meta0, bodies0 := meta, bodies;
      FreshPlanIsCurrent(meta0);
      NothingSwept(meta, bodies, plan.value);
      swept := false;
      for n := 0 to |outages|
        invariant LeaseHeld(meta, lease, token)
        invariant swept ==> FullySwept(meta0, bodies0, plan.value, meta, bodies)
        invariant PartSwept(meta0, bodies0, plan.value, meta, bodies)
      {
        if !swept {
          swept := RetryFenced(lease, token, plan.value, outages[n], meta0, bodies0);
        }
      }
      if !swept {
        swept := RetryFenced(lease, token, plan.value, |plan.value.blobs|, meta0, bodies0);
      }
      PartKeepsSerials(meta0, bodies0, plan.value, meta, bodies, serial);
      SweptToTheReachable(meta0, bodies0, meta, bodies);
      again := PlanGC();
      if BodiesMatch(hs, meta0, bodies0) {
        SweepLeavesExactlyTheLive(hs, meta0, bodies0, meta, bodies);
      }
    }

    method RetryFenced(lease: Bytes, token: nat, plan: Plan, outage: nat, ghost meta0: Meta, ghost bodies0: Bodies)
      returns (ok: bool)
      requires LeaseHeld(meta, lease, token)
      requires Current(meta0, plan) && PartSwept(meta0, bodies0, plan, meta, bodies)
      modifies this`meta, this`bodies
      ensures LeaseHeld(meta, lease, token) && (ok <==> outage >= |plan.blobs|)
      ensures PartSwept(meta0, bodies0, plan, meta, bodies)
      ensures ok ==> FullySwept(meta0, bodies0, plan, meta, bodies)
    {
      ghost var meta1, bodies1 := meta, bodies;
      PartLeavesCurrent(meta0, bodies0, plan, meta1, bodies1);
      var r := SweepGCFenced(lease, token, plan, outage);
      ok := r.Ok?;
      PartTwice(meta0, bodies0, plan, meta1, bodies1, meta, bodies);
      if ok {
        RetriedSweepEndsTheSame(meta0, bodies0, plan, meta1, bodies1, meta, bodies);
      }
    }
  }

  /** Each key is looked up before any other manifest's deletion could matter. */
  lemma {:induction false} DistinctLookups(meta: Meta, plan: Plan, blobs: seq<Bytes>)
    requires Distinct(blobs)
    ensures DeletedKeys(meta, plan, blobs) == LookedUp(meta, plan, blobs)
    decreases |blobs|
  {
    if blobs != [] {
      var h, rest := blobs[0], blobs[1..];
      var after := Without(meta, {}, {h});
      DistinctLookups(after, plan, rest);
      forall g | g in rest ensures PlannedKey(after, plan, g) == PlannedKey(meta, plan, g) {
        var i :| 0 <= i < |rest| && rest[i] == g;
        assert g != h;
      }
      assert LookedUp(after, plan, rest) == LookedUp(meta, plan, rest);
      assert forall g :: g in blobs <==> g == h || g in rest;
    }
  }

  lemma LookupsInFields(meta: Meta, plan: Plan)
    ensures Distinct(plan.blobs) ==> DeletedKeys(meta, plan, plan.blobs) == LookedUp(meta, plan, plan.blobs)
    ensures LookedUp(meta, plan, plan.blobs)
            == set h | h in plan.blobs :: if h in plan.objectKeys then plan.objectKeys[h]
                                          else if h in meta.manifests && meta.manifests[h].objectKey.Some?
                                          then meta.manifests[h].objectKey.value
                                          else ByHash(h)
  {
    if Distinct(plan.blobs) {
      DistinctLookups(meta, plan, plan.blobs);
    }
  }

  lemma NothingSwept(meta: Meta, bodies: Bodies, plan: Plan)
    ensures PartSwept(meta, bodies, plan, meta, bodies)
  {
    assert meta == Without(meta, {}, {}) && bodies == bodies - {};
    assert Part(meta, bodies, plan, meta, bodies, {}, {}, {});
  }

  lemma PartLeavesCurrent(meta: Meta, bodies: Bodies, plan: Plan, meta1: Meta, bodies1: Bodies)
    requires Current(meta, plan) && PartSwept(meta, bodies, plan, meta1, bodies1)
    ensures Current(meta1, plan)
  {
    var nodes, blobs, keys :| Part(meta, bodies, plan, meta1, bodies1, nodes, blobs, keys);
    CurrentSurvives(meta, plan, nodes, blobs);
  }

  lemma PartKeepsSerials(meta: Meta, bodies: Bodies, plan: Plan, meta1: Meta, bodies1: Bodies, serial: nat)
    requires PartSwept(meta, bodies, plan, meta1, bodies1) && SerialsBelow(meta, bodies, serial)
    ensures SerialsBelow(meta1, bodies1, serial)
  {
  }

  /** Two partial sweeps with one plan are a partial sweep. */
  lemma PartTwice(meta0: Meta, bodies0: Bodies, plan: Plan, meta1: Meta, bodies1: Bodies, meta2: Meta, bodies2: Bodies)
    requires PartSwept(meta0, bodies0, plan, meta1, bodies1) && PartSwept(meta1, bodies1, plan, meta2, bodies2)
    ensures PartSwept(meta0, bodies0, plan, meta2, bodies2)
  {
    var nodes, blobs, keys :| Part(meta0, bodies0, plan, meta1, bodies1, nodes, blobs, keys);
    var nodes', blobs', keys' :| Part(meta1, bodies1, plan, meta2, bodies2, nodes', blobs', keys');
    WithoutMore(meta0, nodes, nodes', blobs, blobs');
    assert bodies0 - keys - keys' == bodies0 - (keys + keys');
    forall k | k in keys + keys' ensures KeyOfOne(meta0, plan, blobs + blobs', k) {
      if k in keys {
        KeyOfMore(meta0, meta0, plan, plan, blobs, blobs + blobs', k);
      } else {
        KeyOfLater(meta0, nodes, blobs, plan, blobs', k);
        KeyOfMore(meta0, meta0, plan, plan, blobs', blobs + blobs', k);
      }
    }
    assert Part(meta0, bodies0, plan, meta2, bodies2, nodes + nodes', blobs + blobs', keys + keys');
  }

  lemma KeyOfLater(meta: Meta, nodes: set<Bytes>, blobs: set<Bytes>, plan: Plan, some: set<Bytes>, k: ObjectKey)
    requires KeyOfOne(Without(meta, nodes, blobs), plan, some, k)
    ensures KeyOfOne(meta, plan, some, k)
  {
    var h :| h in some && (k == PlannedKey(Without(meta, nodes, blobs), plan, h) || k == RecordedKey(plan, h));
    PlannedKeyLater(meta, nodes, blobs, plan, h);
  }

  lemma LookedUpGrows(meta: Meta, plan: Plan, blobs: seq<Bytes>, i: nat)
    requires i < |blobs|
    ensures LookedUp(meta, plan, blobs[..i + 1])
            == LookedUp(meta, plan, blobs[..i]) + {PlannedKey(meta, plan, blobs[i])}
    ensures blobs[i] in Members(blobs)
  {
    assert blobs[..i + 1] == blobs[..i] + [blobs[i]];
  }

  lemma LookedUpIsPart(meta: Meta, bodies: Bodies, plan: Plan, i: nat, meta': Meta, bodies': Bodies)
    requires i <= |plan.blobs| && meta' == Without(meta, Members(plan.nodes), Members(plan.blobs))
    requires bodies' == bodies - LookedUp(meta, plan, plan.blobs[..i])
    ensures PartSwept(meta, bodies, plan, meta', bodies')
    ensures i == |plan.blobs| && Current(meta, plan) ==> FullySwept(meta, bodies, plan, meta', bodies')
  {
    var keys := LookedUp(meta, plan, plan.blobs[..i]);
    forall k | k in keys ensures KeyOfOne(meta, plan, Members(plan.blobs), k) {
      var h :| h in plan.blobs[..i] && PlannedKey(meta, plan, h) == k;
      assert h in Members(plan.blobs);
    }
    assert Part(meta, bodies, plan, meta', bodies', Members(plan.nodes), Members(plan.blobs), keys);
    if i == |plan.blobs| && Current(meta, plan) {
      assert plan.blobs[..i] == plan.blobs;
      assert forall h :: h in plan.blobs ==> PlannedKey(meta, plan, h) == RecordedKey(plan, h);
      assert keys == PlanKeys(plan);
    }
  }

  lemma PartThen(meta0: Meta, bodies0: Bodies, plan: Plan, meta: Meta, bodies: Bodies,
                 done: set<Bytes>, keys: set<ObjectKey>, h: Bytes)
    requires Part(meta0, bodies0, plan, meta, bodies, {}, done, keys) && h in Members(plan.blobs)
    ensures var meta' := meta.(manifests := meta.manifests - {h});
            var k := PlannedKey(meta, plan, h);
            && Part(meta0, bodies0, plan, meta', bodies, {}, done + {h}, keys)
            && Part(meta0, bodies0, plan, meta', bodies - {k}, {}, done + {h}, keys + {k})
            && meta' == Without(meta, {}, {h})
  {
    WithoutMore(meta0, {}, {}, done, {h});
    assert Without(meta, {}, {h}) == meta.(manifests := meta.manifests - {h});
    forall k | k in keys ensures KeyOfOne(meta0, plan, done + {h}, k) {
      KeyOfMore(meta0, meta0, plan, plan, done, done + {h}, k);
    }
    PlannedKeyLater(meta0, {}, done, plan, h);
    assert h in done + {h} && KeyOfOne(meta0, plan, done + {h}, PlannedKey(meta, plan, h));
    assert bodies0 - keys - {PlannedKey(meta, plan, h)} == bodies0 - (keys + {PlannedKey(meta, plan, h)});
  }

  /** The state of the sweep's second loop: `i` manifests are gone and so are the bodies `keys`. */
  ghost predicate SweptTo(meta0: Meta, bodies0: Bodies, plan: Plan, meta: Meta, bodies: Bodies, i: nat,
      keys: set<ObjectKey>) {
    && i <= |plan.blobs| && Part(meta0, bodies0, plan, meta, bodies, {}, Members(plan.blobs[..i]), keys)
    && DeletedKeys(meta0, plan, plan.blobs) == keys + DeletedKeys(meta, plan, plan.blobs[i..])
  }

  lemma SweepBegins(meta: Meta, bodies: Bodies, plan: Plan)
    ensures SweptTo(meta, bodies, plan, meta, bodies, 0, {})
  {
    assert plan.blobs[0..] == plan.blobs;
    assert meta == Without(meta, {}, {});
  }

  lemma SweptOne(meta0: Meta, bodies0: Bodies, plan: Plan, meta: Meta, bodies: Bodies, i: nat, keys: set<ObjectKey>)
    requires SweptTo(meta0, bodies0, plan, meta, bodies, i, keys) && i < |plan.blobs|
    ensures var h := plan.blobs[i];
            var k := PlannedKey(meta, plan, h);
            var meta' := meta.(manifests := meta.manifests - {h});
            && PartSwept(meta0, bodies0, plan, meta', bodies)
            && SweptTo(meta0, bodies0, plan, meta', bodies - {k}, i + 1, keys + {k})
  {
    MembersGrow(plan.blobs, i);
    PartThen(meta0, bodies0, plan, meta, bodies, Members(plan.blobs[..i]), keys, plan.blobs[i]);
    assert plan.blobs[i..][1..] == plan.blobs[i + 1..];
  }

  lemma PartJoin(meta0: Meta, meta1: Meta, bodies0: Bodies, plan: Plan, meta2: Meta, bodies2: Bodies)
    requires meta1 == Without(meta0, Members(plan.nodes), {})
    requires PartSwept(meta1, bodies0, plan.(nodes := []), meta2, bodies2)
    ensures PartSwept(meta0, bodies0, plan, meta2, bodies2)
  {
    var plan1 := plan.(nodes := []);
    var nodes, blobs, keys :| Part(meta1, bodies0, plan1, meta2, bodies2, nodes, blobs, keys);
    assert nodes == {};
    WithoutMore(meta0, Members(plan.nodes), {}, {}, blobs);
    assert meta1.manifests == meta0.manifests;
    forall k | k in keys ensures KeyOfOne(meta0, plan, blobs, k) {
      KeyOfMore(meta1, meta0, plan1, plan, blobs, blobs, k);
    }
    assert Part(meta0, bodies0, plan, meta2, bodies2, Members(plan.nodes), blobs, keys);
  }

  lemma {:induction false} KeysIgnoreNodes(meta: Meta, plan: Plan, blobs: seq<Bytes>)
    ensures DeletedKeys(meta, plan.(nodes := []), blobs) == DeletedKeys(meta, plan, blobs)
    decreases |blobs|
  {
    if blobs != [] {
      KeysIgnoreNodes(Without(meta, {}, {blobs[0]}), plan, blobs[1..]);
    }
  }

  lemma MembersGrow(s: seq<Bytes>, i: nat)
    requires i < |s|
    ensures Members(s[..i + 1]) == Members(s[..i]) + {s[i]} && Members(s[..i]) <= Members(s) && s[i] in Members(s)
  {
    assert s[..i + 1] == s[..i] + [s[i]];
  }

  lemma WithoutMore(meta: Meta, nodes: set<Bytes>, nodes': set<Bytes>, blobs: set<Bytes>, blobs': set<Bytes>)
    ensures Without(Without(meta, nodes, blobs), nodes', blobs') == Without(meta, nodes + nodes', blobs + blobs')
  {
    assert meta.nodes - nodes - nodes' == meta.nodes - (nodes + nodes');
    assert meta.manifests - blobs - blobs' == meta.manifests - (blobs + blobs');
  }

  lemma PlannedKeyLater(meta: Meta, nodes: set<Bytes>, blobs: set<Bytes>, plan: Plan, h: Bytes)
    ensures PlannedKey(Without(meta, nodes, blobs), plan, h) in {PlannedKey(meta, plan, h), RecordedKey(plan, h)}
  {
  }
}
