/** The tree as a concurrent system. Each metadata transaction, metadata read, body put and body delete is one atomic
    step; calls in flight are records that remember where they stopped, so any interleaving and any crash (a call that
    is never advanced again) is a run. */
module TreeSystem {
  import opened ByteStrings
  import opened Results
  import opened Sorting
  import opened Nodes
  import opened TreeStore

  datatype Role = Publisher | Collector

  /** A `PutBlob` call between its upload and its return; its key is its unique staging serial. */
  datatype Upload = Upload(hash: Bytes, size: nat, key: Bytes, wanted: Bytes, session: nat, dropping: bool)

  /** A `PlanGC` call. `stack` holds the IDs its walk has still to visit, in order. */
  datatype Planner = Planner(session: nat, stack: seq<Bytes>, marked: set<Bytes>, live: set<Bytes>,
      listed: Option<seq<Bytes>>)

  /** A finished plan with, for the record, the session it was made in and what its walk had marked. */
  datatype Draft = Draft(session: nat, plan: Plan, marked: set<Bytes>, live: set<Bytes>)

  datatype Mode = Unfenced | FencedBy(lease: Bytes, token: nat)

  datatype Stage =
    | DeletingNodes(i: nat)
    | ChoosingKey(i: nat)
    | DeletingManifest(i: nat, key: ObjectKey)
    | DeletingBody(i: nat, key: ObjectKey)
    | CollectingKeys(i: nat, keys: map<Bytes, ObjectKey>)
    | Committing(keys: map<Bytes, ObjectKey>)
    | DeletingBodies(i: nat, keys: map<Bytes, ObjectKey>)

  /** A `SweepGC` call (the first four stages) or a `SweepGCFenced` call (the last three). */
  datatype Sweep = Sweep(draft: Draft, mode: Mode, stage: Stage)

  /** What a publishing session may build on. */
  datatype Cert = Cert(nodes: set<Bytes>, blobs: set<Bytes>)

  /** The stores, the calls in flight, and history: `owner` maps each object key ever published to the hash it was
      published for, `used` holds the staging serials handed out, `roles` says what each lease token was taken for. */
  datatype Sys = Sys(
    meta: Meta, bodies: Bodies,
    uploads: map<nat, Upload>, planners: map<nat, Planner>, plans: set<Draft>, sweeps: map<nat, Sweep>,
    owner: map<ObjectKey, Bytes>, used: set<nat>,
    roles: map<nat, Role>, certs: map<nat, Cert>)

  /** Steps of `PutBlob`: upload, give up (wrong hash or failed transaction), publish, delete the own upload. */
  datatype BlobStep =
    | StageBody(serial: nat, body: Bytes, wanted: Bytes, key: Bytes, session: nat)
    | GiveUp(serial: nat)
    | PublishBlob(serial: nat)
    | DropStaged(serial: nat)

  /** Steps a client takes on behalf of a lease session. */
  datatype SessionStep =
    | PutNode(node: Node)
    | ReadRef(name: Bytes)
    | ReadNode(id: Bytes)
    | ReadManifest(hash: Bytes)

  datatype RefStep =
    | Swap(name: Bytes, id: Bytes, version: nat)
    | SwapFenced(lease: Bytes, token: nat, name: Bytes, id: Bytes, version: nat)
    | Drop(name: Bytes, version: nat)
    | DropFenced(lease: Bytes, token: nat, name: Bytes, version: nat)

  datatype LeaseStep =
    | AcquireLease(lease: Bytes, role: Role)
    | ReleaseLease(lease: Bytes, token: nat)

  /** Steps of `PlanGC`: scan the refs, visit one ID, scan the nodes, scan the manifests. */
  datatype PlanStep =
    | StartPlan(planner: nat, session: nat)
    | VisitNode(planner: nat)
    | ListNodes(planner: nat)
    | ListManifests(planner: nat)

  datatype SweepStep =
    | StartSweep(sweeper: nat, draft: Draft, mode: Mode)
    | AdvanceSweep(sweeper: nat)

  datatype Step =
    | OfBlob(blob: BlobStep)
    | OfSession(session: nat, act: SessionStep)
    | OfRef(ref: RefStep)
    | OfLease(lease: LeaseStep)
    | OfPlan(plan: PlanStep)
    | OfSweep(sweep: SweepStep)

  // ---- What each step does ----

  type Certs = map<nat, Cert>

  ghost function Certify(certs: Certs, session: nat, nodes: set<Bytes>, blobs: set<Bytes>): Certs {
    if session !in certs then certs
    else certs[session := Cert(certs[session].nodes + nodes, certs[session].blobs + blobs)]
  }

  /** The first upload step: the body is stored under a fresh key. */
  ghost function DoStage(hs: Hasher, s: Sys, n: nat, body: Bytes, wanted: Bytes, key: Bytes, session: nat): Sys {
    s.(bodies := s.bodies[Staged(n) := body],
       used := s.used + {n},
       uploads := s.uploads[n := Upload(hs.sum(body), |body|, key, wanted, session, false)])
  }

  function ManifestOf(n: nat, u: Upload): Manifest {
    NewManifest(u.hash, u.size, u.key, n)
  }

  /** The publishing transaction. A duplicate leaves the call with its own upload to delete. */
  ghost function DoPublish(s: Sys, n: nat): Sys
    requires n in s.uploads
  {
    var u := s.uploads[n];
    var first := u.hash !in s.meta.manifests;
    var (m, meta) := Publish(s.meta, ManifestOf(n, u));
    s.(meta := meta,
       certs := Certify(s.certs, u.session, {}, {u.hash}),
       owner := if first then s.owner[Staged(n) := u.hash] else s.owner,
       uploads := if m.objectKey == Some(Staged(n)) then s.uploads - {n} else s.uploads[n := u.(dropping := true)])
  }

  /** Reading a certified node certifies what it refers to; reading a node that refers only to certified objects
      certifies the node. */
  ghost function Learned(s: Sys, session: nat, id: Bytes): Cert
    requires id in s.meta.nodes
  {
    var n := s.meta.nodes[id];
    if session !in s.certs then Cert({}, {})
    else if id in s.certs[session].nodes then Cert(Members(n.children), Members(n.blobs))
    else if Members(n.children) <= s.certs[session].nodes && Members(n.blobs) <= s.certs[session].blobs
    then Cert({id}, {})
    else Cert({}, {})
  }

  /** Taking a token of the lease `main` opens a session in the given role. */
  ghost function DoAcquire(s: Sys, main: Bytes, lease: Bytes, role: Role): Sys {
    var token := Acquire(s.meta, lease).0;
    s.(meta := Acquire(s.meta, lease).1,
       roles := if lease == main then s.roles[token := role] else s.roles,
       certs := if lease == main && role.Publisher? then s.certs[token := Cert({}, {})] else s.certs)
  }

  /** The refs' node IDs in scan order, empty ones skipped. */
  ghost function RootList(meta: Meta): seq<Bytes> {
    RootsOf(meta, Ascending(meta.refs.Keys))
  }

  ghost function RootsOf(meta: Meta, names: seq<Bytes>): seq<Bytes> {
    if names == [] then []
    else (if names[0] in meta.refs && meta.refs[names[0]].nodeId != [] then [meta.refs[names[0]].nodeId] else [])
         + RootsOf(meta, names[1..])
  }

  /** One call of the walk's function on the next ID; `None` when the node cannot be loaded and the plan fails. */
  ghost function Visited(hs: Hasher, meta: Meta, pl: Planner): Option<Planner>
    requires pl.stack != []
  {
    var id := pl.stack[0];
    if id in pl.marked then Some(pl.(stack := pl.stack[1..]))
    else
      var n := GetNode(hs, meta, id);
      if n.Err? then None
      else Some(pl.(marked := pl.marked + {id},
                    live := pl.live + Members(n.value.blobs),
                    stack := n.value.children + pl.stack[1..]))
  }

  ghost function DoVisit(hs: Hasher, s: Sys, p: nat): Sys
    requires p in s.planners && s.planners[p].stack != []
  {
    var next := Visited(hs, s.meta, s.planners[p]);
    s.(planners := if next.Some? then s.planners[p := next.value] else s.planners - {p})
  }

  /** The plan a planner makes of its marks, its node listing and a scan of the manifests. */
  ghost function DraftOf(meta: Meta, pl: Planner): Draft
    requires pl.listed.Some?
  {
    var blobs := Ascending(meta.manifests.Keys - pl.live);
    Draft(pl.session, Plan(pl.listed.value, blobs, ObjectKeys(meta, pl.live)), pl.marked, pl.live)
  }

  ghost function DoListManifests(s: Sys, p: nat): Sys
    requires p in s.planners && s.planners[p].listed.Some?
  {
    s.(planners := s.planners - {p}, plans := s.plans + {DraftOf(s.meta, s.planners[p])})
  }

  /** Where a sweep goes next; `None` when it returns. */
  ghost function NextStage(s: Sys, sw: Sweep): Option<Stage> {
    var plan := sw.draft.plan;
    match sw.stage
    case DeletingNodes(i) => Some(if i < |plan.nodes| then DeletingNodes(i + 1) else ChoosingKey(0))
    case ChoosingKey(i) =>
      if i < |plan.blobs| then Some(DeletingManifest(i, PlannedKey(s.meta, plan, plan.blobs[i]))) else None
    case DeletingManifest(i, key) => Some(DeletingBody(i, key))
    case DeletingBody(i, key) => Some(ChoosingKey(i + 1))
    case CollectingKeys(i, keys) =>
      if i < |plan.blobs|
      then Some(CollectingKeys(i + 1, keys[plan.blobs[i] := PlannedKey(s.meta, plan, plan.blobs[i])]))
      else Some(Committing(keys))
    case Committing(keys) =>
      if sw.mode.FencedBy? && LeaseHeld(s.meta, sw.mode.lease, sw.mode.token)
      then Some(DeletingBodies(0, keys))
      else None
    case DeletingBodies(i, keys) => if i < |plan.blobs| then Some(DeletingBodies(i + 1, keys)) else None
  }

  ghost function MetaAfter(s: Sys, sw: Sweep): Meta {
    var plan := sw.draft.plan;
    match sw.stage
    case DeletingNodes(i) => if i < |plan.nodes| then Without(s.meta, {plan.nodes[i]}, {}) else s.meta
    case DeletingManifest(i, key) => if i < |plan.blobs| then Without(s.meta, {}, {plan.blobs[i]}) else s.meta
    case Committing(keys) =>
      if sw.mode.FencedBy? then SweepFenced(s.meta, sw.mode.lease, sw.mode.token, plan).1 else s.meta
    case _ => s.meta
  }

  ghost function BodiesAfter(s: Sys, sw: Sweep): Bodies {
    var blobs := sw.draft.plan.blobs;
    match sw.stage
    case DeletingBody(i, key) => s.bodies - {key}
    case DeletingBodies(i, keys) => if i < |blobs| && blobs[i] in keys then s.bodies - {keys[blobs[i]]} else s.bodies
    case _ => s.bodies
  }

  ghost function DoAdvance(s: Sys, w: nat): Sys
    requires w in s.sweeps
  {
    var sw := s.sweeps[w];
    var next := NextStage(s, sw);
    s.(meta := MetaAfter(s, sw),
       bodies := BodiesAfter(s, sw),
       sweeps := if next.Some? then s.sweeps[w := sw.(stage := next.value)] else s.sweeps - {w})
  }

  // ---- Which steps are possible, and the state they lead to ----

  ghost predicate BlobEnabled(s: Sys, a: BlobStep) {
    match a
    case StageBody(n, _, _, _, _) => n !in s.used
    case GiveUp(n) => n in s.uploads && !s.uploads[n].dropping
    case PublishBlob(n) =>
      && n in s.uploads && !s.uploads[n].dropping
      && (s.uploads[n].wanted == [] || s.uploads[n].wanted == s.uploads[n].hash)
    case DropStaged(n) => n in s.uploads && s.uploads[n].dropping
  }

  ghost function ApplyBlob(hs: Hasher, s: Sys, a: BlobStep): Sys
    requires BlobEnabled(s, a)
  {
    match a
    case StageBody(n, body, wanted, key, session) => DoStage(hs, s, n, body, wanted, key, session)
    case GiveUp(n) => s.(uploads := s.uploads[n := s.uploads[n].(dropping := true)])
    case PublishBlob(n) => DoPublish(s, n)
    case DropStaged(n) => s.(bodies := s.bodies - {Staged(n)}, uploads := s.uploads - {n})
  }

  ghost predicate SessionEnabled(s: Sys, a: SessionStep) {
    match a
    case PutNode(_) => true
    case ReadRef(name) => name in s.meta.refs
    case ReadNode(id) => id in s.meta.nodes
    case ReadManifest(h) => h in s.meta.manifests
  }

  ghost function ApplySession(hs: Hasher, s: Sys, t: nat, a: SessionStep): Sys
    requires SessionEnabled(s, a)
  {
    match a
    case PutNode(n) => s.(meta := StoreNode(hs, s.meta, n), certs := Certify(s.certs, t, {hs.id(n)}, {}))
    case ReadRef(name) => s.(certs := Certify(s.certs, t, {s.meta.refs[name].nodeId}, {}))
    case ReadNode(id) => s.(certs := Certify(s.certs, t, Learned(s, t, id).nodes, Learned(s, t, id).blobs))
    case ReadManifest(h) => s.(certs := Certify(s.certs, t, {}, {h}))
  }

  ghost function ApplyRef(meta: Meta, a: RefStep): Meta {
    match a
    case Swap(name, id, version) => SwapRef(meta, name, id, version).1
    case SwapFenced(lease, token, name, id, version) => SwapRefFenced(meta, lease, token, name, id, version).1
    case Drop(name, version) => DropRef(meta, name, version).1
    case DropFenced(lease, token, name, version) => DropRefFenced(meta, lease, token, name, version).1
  }

  ghost function ApplyLease(s: Sys, main: Bytes, a: LeaseStep): Sys {
    match a
    case AcquireLease(lease, role) => DoAcquire(s, main, lease, role)
    case ReleaseLease(lease, token) => s.(meta := Release(s.meta, lease, token).1)
  }

  ghost predicate PlanEnabled(s: Sys, a: PlanStep) {
    match a
    case StartPlan(p, _) => p !in s.planners
    case VisitNode(p) => p in s.planners && s.planners[p].listed.None? && s.planners[p].stack != []
    case ListNodes(p) => p in s.planners && s.planners[p].listed.None? && s.planners[p].stack == []
    case ListManifests(p) => p in s.planners && s.planners[p].listed.Some?
  }

  ghost function ApplyPlan(hs: Hasher, s: Sys, a: PlanStep): Sys
    requires PlanEnabled(s, a)
  {
    match a
    case StartPlan(p, session) => s.(planners := s.planners[p := Planner(session, RootList(s.meta), {}, {}, None)])
    case VisitNode(p) => DoVisit(hs, s, p)
    case ListNodes(p) =>
      var listed := Ascending(s.meta.nodes.Keys - s.planners[p].marked);
      s.(planners := s.planners[p := s.planners[p].(listed := Some(listed))])
    case ListManifests(p) => DoListManifests(s, p)
  }

  ghost predicate SweepEnabled(s: Sys, a: SweepStep) {
    match a
    case StartSweep(w, draft, _) => w !in s.sweeps && draft in s.plans
    case AdvanceSweep(w) => w in s.sweeps
  }

  ghost function ApplySweep(s: Sys, a: SweepStep): Sys
    requires SweepEnabled(s, a)
  {
    match a
    case StartSweep(w, draft, mode) =>
      var stage := if mode.Unfenced? then DeletingNodes(0) else CollectingKeys(0, map[]);
      s.(sweeps := s.sweeps[w := Sweep(draft, mode, stage)])
    case AdvanceSweep(w) => DoAdvance(s, w)
  }

  ghost predicate Enabled(s: Sys, a: Step) {
    match a
    case OfBlob(b) => BlobEnabled(s, b)
    case OfSession(_, b) => SessionEnabled(s, b)
    case OfPlan(b) => PlanEnabled(s, b)
    case OfSweep(b) => SweepEnabled(s, b)
    case _ => true
  }

  /** `main` is the lease whose tokens are recorded in `roles`. */
  ghost function Apply(hs: Hasher, main: Bytes, s: Sys, a: Step): Sys
    requires Enabled(s, a)
  {
    match a
    case OfBlob(b) => ApplyBlob(hs, s, b)
    case OfSession(t, b) => ApplySession(hs, s, t, b)
    case OfRef(b) => s.(meta := ApplyRef(s.meta, b))
    case OfLease(b) => ApplyLease(s, main, b)
    case OfPlan(b) => ApplyPlan(hs, s, b)
    case OfSweep(b) => ApplySweep(s, b)
  }

  // ---- What each kind of step leaves alone ----

  lemma BlobStepFrame(hs: Hasher, s: Sys, a: BlobStep)
    requires BlobEnabled(s, a)
    ensures var u := ApplyBlob(hs, s, a);
            && u.meta.nodes == s.meta.nodes && u.meta.leases == s.meta.leases && u.roles == s.roles
            && u.planners == s.planners && u.plans == s.plans
  {
    if a.PublishBlob? {
      assert ApplyBlob(hs, s, a) == DoPublish(s, a.serial);
    }
  }

  lemma SessionStepLeaves(hs: Hasher, s: Sys, t: nat, a: SessionStep)
    requires SessionEnabled(s, a)
    ensures var u := ApplySession(hs, s, t, a); u.meta.leases == s.meta.leases && u.planners == s.planners
  {
  }

  lemma SweepStepLeaves(s: Sys, a: SweepStep)
    requires SweepEnabled(s, a)
    ensures var u := ApplySweep(s, a); u.meta.leases == s.meta.leases && u.planners == s.planners
  {
    if a.AdvanceSweep? {
      assert MetaAfter(s, s.sweeps[a.sweeper]).leases == s.meta.leases;
    }
  }

  lemma RefStepLeaves(meta: Meta, a: RefStep)
    ensures ApplyRef(meta, a).leases == meta.leases
  {
  }

  lemma LeaseStepLeaves(s: Sys, main: Bytes, a: LeaseStep)
    ensures ApplyLease(s, main, a).planners == s.planners
  {
  }

  lemma PlanStepLeaves(hs: Hasher, s: Sys, a: PlanStep)
    requires PlanEnabled(s, a)
    ensures ApplyPlan(hs, s, a).meta == s.meta
  {
    if a.VisitNode? {
      assert DoVisit(hs, s, a.planner).meta == s.meta;
    }
  }

  ghost predicate Follows(hs: Hasher, main: Bytes, s: Sys, a: Step, t: Sys) {
    Enabled(s, a) && t == Apply(hs, main, s, a)
  }

  /** `states` is the history of a run that performs `steps`. */
  ghost predicate IsRun(hs: Hasher, main: Bytes, states: seq<Sys>, steps: seq<Step>) {
    && |states| == |steps| + 1
    && forall i {:trigger steps[i]} :: 0 <= i < |steps| ==> Follows(hs, main, states[i], steps[i], states[i + 1])
  }

  /** No call is in flight and no lease session has begun. */
  ghost predicate Idle(s: Sys) {
    s.uploads == map[] && s.planners == map[] && s.plans == {} && s.sweeps == map[] && s.roles == map[]
        && s.certs == map[]
  }
}
