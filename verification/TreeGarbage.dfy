/** Collecting a quiescent store: what an exact plan is, and what sweeping one does. */
module TreeGarbage {
  import opened ByteStrings
  import opened Results
  import opened Sorting
  import opened Nodes
  import opened TreeStore
  import opened Graphs

  ghost function LiveNodes(meta: Meta): set<Bytes> {
    set id | id in meta.nodes && Reachable(meta, id)
  }

  ghost function LiveBlobs(meta: Meta): set<Bytes> {
    set h | h in meta.manifests && ReachableBlob(meta, h)
  }

  /** Exactly the stored nodes and manifests that no ref reaches, with the body keys their manifests record. */
  ghost function Garbage(meta: Meta): Plan {
    Plan(Ascending(meta.nodes.Keys - LiveNodes(meta)),
         Ascending(meta.manifests.Keys - LiveBlobs(meta)),
         ObjectKeys(meta, LiveBlobs(meta)))
  }

  /** Every reachable node is stored under its own address. */
  ghost predicate Walkable(hs: Hasher, meta: Meta) {
    forall id :: Reachable(meta, id) ==> GetNode(hs, meta, id).Ok?
  }

  lemma GarbageMembers(meta: Meta)
    ensures Members(Garbage(meta).nodes) == meta.nodes.Keys - LiveNodes(meta)
    ensures Members(Garbage(meta).blobs) == meta.manifests.Keys - LiveBlobs(meta)
  {
    AscendingSorts(meta.nodes.Keys - LiveNodes(meta));
    AscendingSorts(meta.manifests.Keys - LiveBlobs(meta));
  }

  /** The garbage, listed in order, said about the stored records. */
  lemma GarbageInFields(meta: Meta)
    ensures var plan := Garbage(meta);
            && StrictlyAscending(plan.nodes) && StrictlyAscending(plan.blobs)
            && (forall id :: id in plan.nodes <==> id in meta.nodes && !Reachable(meta, id))
            && (forall h :: h in plan.blobs <==> h in meta.manifests && !ReachableBlob(meta, h))
            && (forall h :: h in plan.objectKeys <==> h in plan.blobs && meta.manifests[h].objectKey.Some?)
            && (forall h :: h in plan.objectKeys ==> Some(plan.objectKeys[h]) == meta.manifests[h].objectKey)
  {
    AscendingSorts(meta.nodes.Keys - LiveNodes(meta));
    AscendingSorts(meta.manifests.Keys - LiveBlobs(meta));
  }

  /** A set of marks that holds the roots, is closed under children and was only ever reached, is the live set. */
  lemma MarksAreLive(hs: Hasher, meta: Meta, marked: set<Bytes>)
    requires Roots(meta) <= marked && ChildClosed(meta.nodes, marked)
    requires forall x :: x in marked ==> Reachable(meta, x) && GetNode(hs, meta, x).Ok?
    ensures marked == LiveNodes(meta) && Walkable(hs, meta)
  {
    forall id | Reachable(meta, id) ensures id in marked {
      var r :| r in Roots(meta) && Reaches(meta.nodes, r, id);
      ReachesInside(meta.nodes, marked, r);
    }
  }

  /** Everything the node at `x` refers to is accounted for. */
  ghost predicate Accounted(meta: Meta, x: Bytes, nodes: set<Bytes>, blobs: set<Bytes>) {
    && x in meta.nodes
    && (forall c :: c in meta.nodes[x].children ==> c in nodes)
    && (forall h :: h in meta.nodes[x].blobs ==> h in blobs)
  }

  ghost predicate BlobOf(meta: Meta, nodes: set<Bytes>, h: Bytes) {
    exists x :: x in nodes && x in meta.nodes && h in meta.nodes[x].blobs
  }

  /** The state of the walk over all refs: marked nodes are reachable, load, and are accounted for. */
  ghost predicate Marked(hs: Hasher, meta: Meta, nodes: set<Bytes>, blobs: set<Bytes>) {
    && (forall x :: x in nodes ==> Reachable(meta, x) && GetNode(hs, meta, x).Ok? && Accounted(meta, x, nodes, blobs))
    && (forall h :: h in blobs ==> BlobOf(meta, nodes, h))
  }

  lemma MarkedBlobsAreLive(hs: Hasher, meta: Meta, nodes: set<Bytes>, blobs: set<Bytes>)
    requires nodes == LiveNodes(meta) && Marked(hs, meta, nodes, blobs)
    ensures forall h :: h in blobs <==> ReachableBlob(meta, h)
  {
    forall h | ReachableBlob(meta, h) ensures h in blobs {
      var id :| Reachable(meta, id) && id in meta.nodes && h in meta.nodes[id].blobs;
      assert id in nodes;
    }
    forall h | h in blobs ensures ReachableBlob(meta, h) {
      var x :| x in nodes && x in meta.nodes && h in meta.nodes[x].blobs;
      assert Reachable(meta, x);
    }
  }

  lemma AllMarkedIsGarbage(hs: Hasher, meta: Meta, nodes: set<Bytes>, blobs: set<Bytes>)
    requires Marked(hs, meta, nodes, blobs) && Roots(meta) <= nodes
    ensures Walkable(hs, meta)
    ensures Garbage(meta) == Plan(Ascending(meta.nodes.Keys - nodes),
                                  Ascending(meta.manifests.Keys - blobs),
                                  ObjectKeys(meta, blobs))
  {
    MarksAreLive(hs, meta, nodes);
    MarkedBlobsAreLive(hs, meta, nodes, blobs);
    assert meta.manifests.Keys - blobs == meta.manifests.Keys - LiveBlobs(meta);
    assert ObjectKeys(meta, blobs) == ObjectKeys(meta, LiveBlobs(meta));
  }

  // ---- Sweeping ----

  /** The bodies `SweepGC` deletes for `blobs`: each key is looked up just before its manifest goes. */
  function DeletedKeys(meta: Meta, plan: Plan, blobs: seq<Bytes>): set<ObjectKey>
    decreases |blobs|
  {
    if blobs == [] then {}
    else {PlannedKey(meta, plan, blobs[0])} + DeletedKeys(Without(meta, {}, {blobs[0]}), plan, blobs[1..])
  }

  /** The plan records the key of every planned manifest that has one. */
  ghost predicate Current(meta: Meta, plan: Plan) {
    forall h :: h in plan.blobs && h !in plan.objectKeys ==> BodyObjectKey(meta, h) == ByHash(h)
  }

  function RecordedKey(plan: Plan, h: Bytes): ObjectKey {
    if h in plan.objectKeys then plan.objectKeys[h] else ByHash(h)
  }

  ghost function PlanKeys(plan: Plan): set<ObjectKey> {
    set h | h in plan.blobs :: RecordedKey(plan, h)
  }

  /** The bodies a fenced sweep deletes: all keys are looked up before the transaction. */
  ghost function LookedUp(meta: Meta, plan: Plan, blobs: seq<Bytes>): set<ObjectKey> {
    set h | h in blobs :: PlannedKey(meta, plan, h)
  }

  lemma {:induction false} KeysNeedOnlyManifests(meta: Meta, other: Meta, plan: Plan, blobs: seq<Bytes>)
    requires meta.manifests == other.manifests
    ensures DeletedKeys(meta, plan, blobs) == DeletedKeys(other, plan, blobs)
    decreases |blobs|
  {
    if blobs != [] {
      KeysNeedOnlyManifests(Without(meta, {}, {blobs[0]}), Without(other, {}, {blobs[0]}), plan, blobs[1..]);
    }
  }

  /** For a plan that records its keys, the lookups find just those. */
  lemma {:induction false} CurrentKeys(meta: Meta, plan: Plan, blobs: seq<Bytes>)
    requires Current(meta, plan) && forall h :: h in blobs ==> h in plan.blobs
    ensures DeletedKeys(meta, plan, blobs) == set h | h in blobs :: RecordedKey(plan, h)
    decreases |blobs|
  {
    if blobs != [] {
      var h, rest := blobs[0], blobs[1..];
      CurrentKeys(Without(meta, {}, {h}), plan, rest);
      assert PlannedKey(meta, plan, h) == RecordedKey(plan, h);
      assert forall g :: g in blobs <==> g == h || g in rest;
    }
  }

  /** `k` is a body that the sweep may delete for one of `blobs`. */
  ghost predicate KeyOfOne(meta: Meta, plan: Plan, blobs: set<Bytes>, k: ObjectKey) {
    exists h :: h in blobs && (k == PlannedKey(meta, plan, h) || k == RecordedKey(plan, h))
  }

  ghost predicate Part(meta: Meta, bodies: Bodies, plan: Plan, meta': Meta, bodies': Bodies,
                       nodes: set<Bytes>, blobs: set<Bytes>, keys: set<ObjectKey>) {
    && nodes <= Members(plan.nodes) && blobs <= Members(plan.blobs)
    && meta' == Without(meta, nodes, blobs) && bodies' == bodies - keys
    && forall k :: k in keys ==> KeyOfOne(meta, plan, blobs, k)
  }

  lemma KeyOfMore(meta: Meta, other: Meta, plan: Plan, plan': Plan, some: set<Bytes>, more: set<Bytes>, k: ObjectKey)
    requires KeyOfOne(meta, plan, some, k) && some <= more
    requires meta.manifests == other.manifests && plan'.objectKeys == plan.objectKeys
    ensures KeyOfOne(other, plan', more, k)
  {
  }

  /** The stores after some of the plan was carried out: bodies only go after the manifests that own them. */
  ghost predicate PartSwept(meta: Meta, bodies: Bodies, plan: Plan, meta': Meta, bodies': Bodies) {
    exists nodes, blobs, keys :: Part(meta, bodies, plan, meta', bodies', nodes, blobs, keys)
  }

  ghost predicate FullySwept(meta: Meta, bodies: Bodies, plan: Plan, meta': Meta, bodies': Bodies) {
    meta' == Without(meta, Members(plan.nodes), Members(plan.blobs)) && bodies' == bodies - PlanKeys(plan)
  }

  /** What is left of the metadata is what the refs reach. */
  lemma SweptToTheReachable(meta: Meta, bodies: Bodies, meta': Meta, bodies': Bodies)
    requires FullySwept(meta, bodies, Garbage(meta), meta', bodies')
    ensures forall id :: id in meta'.nodes <==> id in meta.nodes && Reachable(meta, id)
    ensures forall h :: h in meta'.manifests <==> h in meta.manifests && ReachableBlob(meta, h)
    ensures meta'.refs == meta.refs && meta'.leases == meta.leases
  {
    GarbageMembers(meta);
  }

  lemma CurrentSurvives(meta: Meta, plan: Plan, nodes: set<Bytes>, blobs: set<Bytes>)
    requires Current(meta, plan)
    ensures Current(Without(meta, nodes, blobs), plan)
  {
  }

  lemma FreshPlanIsCurrent(meta: Meta)
    ensures Current(meta, Garbage(meta))
  {
    GarbageMembers(meta);
    forall h | h in Garbage(meta).blobs && h !in Garbage(meta).objectKeys ensures BodyObjectKey(meta, h) == ByHash(h) {
      assert h in Members(Garbage(meta).blobs);
    }
  }

  /** A sweep that stopped part-way and is run again with the unchanged plan ends where an undisturbed one would. */
  lemma RetriedSweepEndsTheSame(meta: Meta, bodies: Bodies, plan: Plan, meta1: Meta, bodies1: Bodies, meta2: Meta,
          bodies2: Bodies)
    requires Current(meta, plan) && PartSwept(meta, bodies, plan, meta1, bodies1)
    requires FullySwept(meta1, bodies1, plan, meta2, bodies2)
    ensures FullySwept(meta, bodies, plan, meta2, bodies2)
  {
    var nodes, blobs, keys :| Part(meta, bodies, plan, meta1, bodies1, nodes, blobs, keys);
    assert meta2.nodes == meta.nodes - Members(plan.nodes);
    assert meta2.manifests == meta.manifests - Members(plan.blobs);
    forall k | k in keys ensures k in PlanKeys(plan) {
      var h :| h in blobs && (k == PlannedKey(meta, plan, h) || k == RecordedKey(plan, h));
      assert h in plan.blobs;
    }
    assert bodies2 == bodies - PlanKeys(plan);
  }

  lemma {:induction false} LivePath(meta: Meta, r: Bytes, p: seq<Bytes>, nodes: map<Bytes, Node>)
    requires r in Roots(meta) && IsPath(meta.nodes, p) && Reaches(meta.nodes, r, p[0])
    requires forall x :: x in LiveNodes(meta) ==> x in nodes && nodes[x] == meta.nodes[x]
    ensures IsPath(nodes, p)
  {
    if |p| > 1 {
      assert p[0] in LiveNodes(meta);
      assert p[1] in meta.nodes[p[0]].children;
      ReachesChild(meta.nodes, r, p[0], p[1]);
      LivePath(meta, r, p[1..], nodes);
    }
  }

  /** Removing what is not live changes neither what is reachable nor what is stored of it. */
  lemma ReachableSurvives(meta: Meta, after: Meta)
    requires after == Without(meta, meta.nodes.Keys - LiveNodes(meta), meta.manifests.Keys - LiveBlobs(meta))
    ensures forall id :: Reachable(after, id) <==> Reachable(meta, id)
  {
    forall id | Reachable(meta, id) ensures Reachable(after, id) {
      var r :| r in Roots(meta) && Reaches(meta.nodes, r, id);
      var p :| Leads(meta.nodes, p, r, id);
      ReachesSelf(meta.nodes, r);
      LivePath(meta, r, p, after.nodes);
      assert Leads(after.nodes, p, r, id) && r in Roots(after);
    }
    forall id | Reachable(after, id) ensures Reachable(meta, id) {
      var r :| r in Roots(after) && Reaches(after.nodes, r, id);
      var p :| Leads(after.nodes, p, r, id);
      assert Leads(meta.nodes, p, r, id) && r in Roots(meta);
    }
  }

  lemma NothingLeft(meta: Meta)
    requires LiveNodes(meta) == meta.nodes.Keys && LiveBlobs(meta) == meta.manifests.Keys
    ensures Garbage(meta) == Plan([], [], map[])
  {
    assert meta.nodes.Keys - LiveNodes(meta) == {} && meta.manifests.Keys - LiveBlobs(meta) == {};
    assert ObjectKeys(meta, LiveBlobs(meta)) == map[];
  }

  /** Two manifests never share a body, so deleting the garbage bodies spares the live ones. */
  lemma LiveBodiesSpared(hs: Hasher, meta: Meta, bodies: Bodies, h: Bytes)
    requires BodiesMatch(hs, meta, bodies) && h in LiveBlobs(meta)
    ensures BodyKey(meta.manifests[h]) !in PlanKeys(Garbage(meta))
  {
    GarbageMembers(meta);
    var plan := Garbage(meta);
    forall g | g in plan.blobs
      ensures BodyKey(meta.manifests[h]) != RecordedKey(plan, g)
    {
      assert g in Members(plan.blobs) && g in meta.manifests && g != h;
      assert BodyKey(meta.manifests[g]) == RecordedKey(plan, g);
    }
  }

  lemma LiveBlobSurvives(meta: Meta, after: Meta, h: Bytes)
    requires forall id :: Reachable(meta, id) ==> Reachable(after, id)
    requires forall id :: id in LiveNodes(meta) ==> id in after.nodes && after.nodes[id] == meta.nodes[id]
    requires h in LiveBlobs(meta)
    ensures ReachableBlob(after, h)
  {
    var id :| Reachable(meta, id) && id in meta.nodes && h in meta.nodes[id].blobs;
    assert id in LiveNodes(meta);
    assert Reachable(after, id) && id in after.nodes && h in after.nodes[id].blobs;
  }

  lemma LiveNodesSurvive(meta: Meta, after: Meta)
    requires after == Without(meta, meta.nodes.Keys - LiveNodes(meta), meta.manifests.Keys - LiveBlobs(meta))
    ensures LiveNodes(after) == after.nodes.Keys == LiveNodes(meta)
  {
    ReachableSurvives(meta, after);
    assert after.nodes.Keys == LiveNodes(meta);
    assert forall id :: id in LiveNodes(meta) ==> Reachable(after, id);
  }

  lemma LiveBlobsSurvive(meta: Meta, after: Meta)
    requires after == Without(meta, meta.nodes.Keys - LiveNodes(meta), meta.manifests.Keys - LiveBlobs(meta))
    ensures LiveBlobs(after) == after.manifests.Keys == LiveBlobs(meta)
  {
    var live := LiveBlobs(meta);
    assert after.manifests.Keys == live;
    forall h | h in live ensures h in LiveBlobs(after) {
      ReachableSurvives(meta, after);
      LiveBlobSurvives(meta, after, h);
    }
  }

  lemma SweptBodiesMatch(hs: Hasher, meta: Meta, bodies: Bodies, after: Meta, bodies': Bodies)
    requires BodiesMatch(hs, meta, bodies) && bodies' == bodies - PlanKeys(Garbage(meta))
    requires after.manifests == meta.manifests - (meta.manifests.Keys - LiveBlobs(meta))
    ensures BodiesMatch(hs, after, bodies')
    ensures forall h :: h in after.manifests ==>
              bodies'[BodyKey(meta.manifests[h])] == bodies[BodyKey(meta.manifests[h])]
  {
    forall h | h in after.manifests ensures BodyKey(meta.manifests[h]) in bodies' {
      LiveBodiesSpared(hs, meta, bodies, h);
    }
  }

  /** Planning and then sweeping a store whose graph can be walked keeps all that refs reach, with its bodies, and
      leaves nothing to collect: the next plan is empty. */
  lemma SweepLeavesExactlyTheLive(hs: Hasher, meta: Meta, bodies: Bodies, after: Meta, bodies': Bodies)
    requires Walkable(hs, meta) && BodiesMatch(hs, meta, bodies)
    requires FullySwept(meta, bodies, Garbage(meta), after, bodies')
    ensures after.refs == meta.refs && after.leases == meta.leases
    ensures forall id :: Reachable(meta, id) ==> GetNode(hs, after, id) == GetNode(hs, meta, id)
    ensures forall h :: ReachableBlob(meta, h) && h in meta.manifests ==>
              h in after.manifests && after.manifests[h] == meta.manifests[h] && BodyKey(meta.manifests[h]) in bodies'
              && bodies'[BodyKey(meta.manifests[h])] == bodies[BodyKey(meta.manifests[h])]
    ensures BodiesMatch(hs, after, bodies') && Walkable(hs, after)
    ensures Garbage(after) == Plan([], [], map[])
  {
    GarbageMembers(meta);
    SweptBodiesMatch(hs, meta, bodies, after, bodies');
    LiveNodesSurvive(meta, after);
    LiveBlobsSurvive(meta, after);
    ReachableSurvives(meta, after);
    NothingLeft(after);
  }
}
