/** Without any lease discipline: no interleaving of uploads, plans and sweeps, however stale the plan, separates a
    manifest from its body. */
module TreeBodies {
  import opened ByteStrings
  import opened Results
  import opened Nodes
  import opened TreeStore
  import opened TreeSystem

  /** `k` can only ever be the body of a manifest of `h`. */
  ghost predicate Owned(s: Sys, k: ObjectKey, h: Bytes) {
    k == ByHash(h) || (k in s.owner && s.owner[k] == h)
  }

  /** No manifest names `k`. */
  ghost predicate Unnamed(s: Sys, k: ObjectKey) {
    forall h :: h in s.meta.manifests ==> BodyKey(s.meta.manifests[h]) != k
  }

  ghost predicate KeysOwned(s: Sys, keys: map<Bytes, ObjectKey>) {
    forall h :: h in keys ==> Owned(s, keys[h], h)
  }

  ghost predicate StageSafe(s: Sys, blobs: seq<Bytes>, stage: Stage) {
    match stage
    case DeletingManifest(i, key) => i < |blobs| && Owned(s, key, blobs[i])
    case DeletingBody(i, key) => i < |blobs| && Owned(s, key, blobs[i]) && Unnamed(s, key)
    case CollectingKeys(i, keys) => KeysOwned(s, keys) && i <= |blobs| && forall j :: 0 <= j < i ==> blobs[j] in keys
    case Committing(keys) => KeysOwned(s, keys) && forall h :: h in blobs ==> h in keys
    case DeletingBodies(i, keys) =>
      KeysOwned(s, keys) && forall h :: h in blobs ==> h in keys && Unnamed(s, keys[h])
    case _ => true
  }

  /** Manifests and bodies agree, and each manifest names a body its hash owns. */
  ghost predicate Stored(hs: Hasher, s: Sys) {
    && BodiesMatch(hs, s.meta, s.bodies)
    && (forall h :: h in s.meta.manifests ==> Owned(s, BodyKey(s.meta.manifests[h]), h))
  }

  /** An upload in flight was never published; until it gives up, its body is intact. */
  ghost predicate UploadsSafe(hs: Hasher, s: Sys) {
    && (forall k :: k in s.owner ==> k.Staged? && k.serial in s.used)
    && (forall n :: n in s.uploads ==> n in s.used && Staged(n) !in s.owner)
    && (forall n :: n in s.uploads && !s.uploads[n].dropping ==>
          Staged(n) in s.bodies && hs.sum(s.bodies[Staged(n)]) == s.uploads[n].hash
              && |s.bodies[Staged(n)]| == s.uploads[n].size)
  }

  ghost predicate SweepSafe(s: Sys, sw: Sweep) {
    KeysOwned(s, sw.draft.plan.objectKeys) && StageSafe(s, sw.draft.plan.blobs, sw.stage)
  }

  ghost predicate PlansSafe(s: Sys) {
    && (forall d :: d in s.plans ==> KeysOwned(s, d.plan.objectKeys))
    && (forall w :: w in s.sweeps ==> SweepSafe(s, s.sweeps[w]))
  }

  /** The invariant of every run. */
  ghost predicate BodiesSafe(hs: Hasher, s: Sys) {
    Stored(hs, s) && UploadsSafe(hs, s) && PlansSafe(s)
  }

  /** Ownership is forever, and an owned body that no manifest names is never named again. */
  ghost predicate Ages(s: Sys, t: Sys) {
    && (forall k :: k in s.owner ==> k in t.owner && t.owner[k] == s.owner[k])
    && (forall h :: h in t.meta.manifests ==>
          var k := BodyKey(t.meta.manifests[h]);
          (h in s.meta.manifests && k == BodyKey(s.meta.manifests[h])) || (k.Staged? && k !in s.owner))
  }

  lemma KeysAge(s: Sys, t: Sys, keys: map<Bytes, ObjectKey>)
    requires Ages(s, t) && KeysOwned(s, keys)
    ensures KeysOwned(t, keys)
    ensures forall h :: h in keys && Unnamed(s, keys[h]) ==> Unnamed(t, keys[h])
  {
    forall h | h in keys && Unnamed(s, keys[h]) ensures Unnamed(t, keys[h]) {
      KeyAges(s, t, keys[h], h);
    }
  }

  lemma KeyAges(s: Sys, t: Sys, k: ObjectKey, h: Bytes)
    requires Ages(s, t) && Owned(s, k, h)
    ensures Owned(t, k, h) && (Unnamed(s, k) ==> Unnamed(t, k))
  {
  }

  lemma StageAges(s: Sys, t: Sys, blobs: seq<Bytes>, stage: Stage)
    requires Ages(s, t) && StageSafe(s, blobs, stage)
    ensures StageSafe(t, blobs, stage)
  {
    match stage {
      case DeletingManifest(i, key) => KeyAges(s, t, key, blobs[i]);
      case DeletingBody(i, key) => KeyAges(s, t, key, blobs[i]);
      case CollectingKeys(_, keys) => KeysAge(s, t, keys);
      case Committing(keys) => KeysAge(s, t, keys);
      case DeletingBodies(_, keys) => KeysAge(s, t, keys);
      case _ =>
    }
  }

  lemma PlansAge(s: Sys, t: Sys)
    requires Ages(s, t) && PlansSafe(s) && t.plans == s.plans && t.sweeps == s.sweeps
    ensures PlansSafe(t)
  {
    forall d | d in s.plans ensures KeysOwned(t, d.plan.objectKeys) {
      KeysAge(s, t, d.plan.objectKeys);
    }
    forall w | w in s.sweeps ensures SweepSafe(t, s.sweeps[w]) {
      SweepAges(s, t, s.sweeps[w]);
    }
  }

  lemma SweepAges(s: Sys, t: Sys, sw: Sweep)
    requires Ages(s, t) && SweepSafe(s, sw)
    ensures SweepSafe(t, sw)
  {
    KeysAge(s, t, sw.draft.plan.objectKeys);
    StageAges(s, t, sw.draft.plan.blobs, sw.stage);
  }

  /** What publishing does: a new manifest names the upload's own body, which was never published before. */
  lemma PublishedIsStored(hs: Hasher, s: Sys, n: nat)
    requires Stored(hs, s) && UploadsSafe(hs, s) && BlobEnabled(s, PublishBlob(n))
    ensures Stored(hs, DoPublish(s, n)) && Ages(s, DoPublish(s, n))
  {
  }

  lemma PublishKeepsUploads(hs: Hasher, s: Sys, n: nat)
    requires UploadsSafe(hs, s) && BlobEnabled(s, PublishBlob(n))
    requires forall h :: h in s.meta.manifests ==> Owned(s, BodyKey(s.meta.manifests[h]), h)
    ensures UploadsSafe(hs, DoPublish(s, n))
  {
  }

  lemma PublishKeepsBodies(hs: Hasher, s: Sys, n: nat)
    requires BodiesSafe(hs, s) && BlobEnabled(s, PublishBlob(n))
    ensures BodiesSafe(hs, DoPublish(s, n)) && Ages(s, DoPublish(s, n))
  {
    PublishedIsStored(hs, s, n);
    PublishKeepsUploads(hs, s, n);
    PlansAge(s, DoPublish(s, n));
  }

  /** Once the manifest of `h` is gone, nothing names a body that `h` owned. */
  lemma DeletedIsUnnamed(hs: Hasher, s: Sys, t: Sys, k: ObjectKey, h: Bytes)
    requires Stored(hs, s) && UploadsSafe(hs, s) && Owned(s, k, h)
    requires h !in t.meta.manifests
    requires forall g :: g in t.meta.manifests ==> g in s.meta.manifests && t.meta.manifests[g] == s.meta.manifests[g]
    ensures Unnamed(t, k)
  {
    forall g | g in t.meta.manifests ensures BodyKey(t.meta.manifests[g]) != k {
      assert Owned(s, BodyKey(s.meta.manifests[g]), g);
    }
  }

  /** What one step of a sweep does to the stores: it deletes metadata, or a body that nothing names. */
  ghost predicate SweepsAway(s: Sys, t: Sys) {
    && (forall h :: h in t.meta.manifests ==> h in s.meta.manifests && t.meta.manifests[h] == s.meta.manifests[h])
    && (forall k :: k in t.bodies ==> k in s.bodies && t.bodies[k] == s.bodies[k])
    && (forall k :: k in s.bodies && k !in t.bodies ==> Unnamed(s, k) && exists h :: Owned(s, k, h))
    && t.owner == s.owner && t.used == s.used && t.uploads == s.uploads && t.plans == s.plans
  }

  lemma SweptStoresSafe(hs: Hasher, s: Sys, t: Sys)
    requires BodiesSafe(hs, s) && SweepsAway(s, t)
    ensures Stored(hs, t) && UploadsSafe(hs, t) && Ages(s, t)
    ensures forall d :: d in t.plans ==> KeysOwned(t, d.plan.objectKeys)
  {
    forall n | n in s.uploads && !s.uploads[n].dropping ensures Staged(n) in t.bodies {
      assert Staged(n) !in s.owner;
      assert forall h :: !Owned(s, Staged(n), h);
    }
    forall d | d in s.plans ensures KeysOwned(t, d.plan.objectKeys) {
      KeysAge(s, t, d.plan.objectKeys);
    }
  }

  lemma PlannedKeyOwned(hs: Hasher, s: Sys, plan: Plan, h: Bytes)
    requires Stored(hs, s) && KeysOwned(s, plan.objectKeys)
    ensures Owned(s, PlannedKey(s.meta, plan, h), h)
  {
  }

  lemma SweptBodiesUnnamed(s: Sys, sw: Sweep)
    requires SweepSafe(s, sw)
    ensures forall k :: k in BodiesAfter(s, sw) ==> k in s.bodies && BodiesAfter(s, sw)[k] == s.bodies[k]
    ensures forall k :: k in s.bodies && k !in BodiesAfter(s, sw) ==> Unnamed(s, k) && exists h :: Owned(s, k, h)
  {
    var blobs := sw.draft.plan.blobs;
    match sw.stage {
      case DeletingBody(i, key) => assert Owned(s, key, blobs[i]);
      case DeletingBodies(i, keys) =>
        if i < |blobs| {
          assert blobs[i] in blobs;
          assert Owned(s, keys[blobs[i]], blobs[i]);
        }
      case _ =>
    }
  }

  lemma SweptManifests(s: Sys, sw: Sweep)
    ensures forall h :: h in MetaAfter(s, sw).manifests ==>
              h in s.meta.manifests && MetaAfter(s, sw).manifests[h] == s.meta.manifests[h]
  {
  }

  lemma AdvanceSweepsAway(hs: Hasher, s: Sys, w: nat)
    requires BodiesSafe(hs, s) && w in s.sweeps
    ensures SweepsAway(s, DoAdvance(s, w))
  {
    var sw := s.sweeps[w];
    assert SweepSafe(s, sw);
    SweptBodiesUnnamed(s, sw);
    SweptManifests(s, sw);
  }

  lemma CollectedKeySafe(hs: Hasher, s: Sys, t: Sys, plan: Plan, i: nat, keys: map<Bytes, ObjectKey>)
    requires Stored(hs, s) && Ages(s, t) && KeysOwned(s, plan.objectKeys) && i < |plan.blobs|
    requires StageSafe(t, plan.blobs, CollectingKeys(i, keys))
    ensures var h := plan.blobs[i];
            StageSafe(t, plan.blobs, CollectingKeys(i + 1, keys[h := PlannedKey(s.meta, plan, h)]))
  {
    PlannedKeyOwned(hs, s, plan, plan.blobs[i]);
    KeyAges(s, t, PlannedKey(s.meta, plan, plan.blobs[i]), plan.blobs[i]);
  }

  lemma CommittedKeysUnnamed(hs: Hasher, s: Sys, t: Sys, blobs: seq<Bytes>, keys: map<Bytes, ObjectKey>)
    requires Stored(hs, s) && UploadsSafe(hs, s) && KeysOwned(s, keys) && KeysOwned(t, keys)
    requires forall h :: h in blobs ==> h in keys
    requires forall h :: h in blobs ==> h !in t.meta.manifests
    requires forall g :: g in t.meta.manifests ==> g in s.meta.manifests && t.meta.manifests[g] == s.meta.manifests[g]
    ensures StageSafe(t, blobs, DeletingBodies(0, keys))
  {
    forall h | h in blobs ensures Unnamed(t, keys[h]) {
      DeletedIsUnnamed(hs, s, t, keys[h], h);
    }
  }

  /** The stage a sweep moves to is safe, given that its old stage is still safe after the step. */
  lemma NextStageSafe(hs: Hasher, s: Sys, w: nat, t: Sys)
    requires w in s.sweeps && Stored(hs, s) && UploadsSafe(hs, s) && Ages(s, t)
    requires SweepSafe(s, s.sweeps[w]) && SweepSafe(t, s.sweeps[w])
    requires SweepsAway(s, t) && t.meta == MetaAfter(s, s.sweeps[w]) && NextStage(s, s.sweeps[w]).Some?
    ensures StageSafe(t, s.sweeps[w].draft.plan.blobs, NextStage(s, s.sweeps[w]).value)
  {
    var sw := s.sweeps[w];
    var plan := sw.draft.plan;
    match sw.stage {
      case ChoosingKey(i) =>
        PlannedKeyOwned(hs, s, plan, plan.blobs[i]);
        KeyAges(s, t, PlannedKey(s.meta, plan, plan.blobs[i]), plan.blobs[i]);
      case DeletingManifest(i, key) => DeletedIsUnnamed(hs, s, t, key, plan.blobs[i]);
      case CollectingKeys(i, keys) =>
        if i < |plan.blobs| {
          CollectedKeySafe(hs, s, t, plan, i, keys);
        }
      case Committing(keys) => CommittedKeysUnnamed(hs, s, t, plan.blobs, keys);
      case _ =>
    }
  }

  lemma AdvancedSweepSafe(hs: Hasher, s: Sys, w: nat)
    requires BodiesSafe(hs, s) && w in s.sweeps && w in DoAdvance(s, w).sweeps
    requires SweepsAway(s, DoAdvance(s, w)) && Ages(s, DoAdvance(s, w))
    ensures SweepSafe(DoAdvance(s, w), DoAdvance(s, w).sweeps[w])
  {
    assert SweepSafe(s, s.sweeps[w]);
    SweepAges(s, DoAdvance(s, w), s.sweeps[w]);
    NextStageSafe(hs, s, w, DoAdvance(s, w));
  }

  lemma AdvanceKeepsBodies(hs: Hasher, s: Sys, w: nat)
    requires BodiesSafe(hs, s) && w in s.sweeps
    ensures BodiesSafe(hs, DoAdvance(s, w)) && Ages(s, DoAdvance(s, w))
  {
    var t := DoAdvance(s, w);
    AdvanceSweepsAway(hs, s, w);
    SweptStoresSafe(hs, s, t);
    forall v | v in t.sweeps ensures SweepSafe(t, t.sweeps[v]) {
      if v == w {
        AdvancedSweepSafe(hs, s, w);
      } else {
        SweepAges(s, t, s.sweeps[v]);
      }
    }
  }

  /** Uploading stores a body under a key that no manifest names and no other call owns. */
  lemma StageKeepsStored(hs: Hasher, s: Sys, n: nat, body: Bytes, wanted: Bytes, key: Bytes, session: nat)
    requires Stored(hs, s) && UploadsSafe(hs, s) && n !in s.used
    ensures var t := DoStage(hs, s, n, body, wanted, key, session);
            Stored(hs, t) && UploadsSafe(hs, t) && Ages(s, t)
  {
  }

  /** The publishing step of the system, in fields: only an upload with the wanted hash is published, and it gets the
      manifest that `PutBlob` gives it, unless there is one. */
  lemma PublishStepActs(s: Sys, n: nat)
    requires BlobEnabled(s, PublishBlob(n))
    ensures var u, t := s.uploads[n], DoPublish(s, n);
            && (u.wanted == [] || u.wanted == u.hash)
            && t.bodies == s.bodies && t.meta == s.meta.(manifests := t.meta.manifests)
            && t.meta.manifests ==
               if u.hash in s.meta.manifests then s.meta.manifests
               else s.meta.manifests[u.hash :=
                      Manifest(if u.key == [] then u.hash else u.key, u.hash, u.size, Some(Staged(n)))]
  {
  }

  /** A call that gave up or found a duplicate deletes its own upload, which no manifest names, and nothing else. */
  lemma DroppedUploadIsOwn(hs: Hasher, s: Sys, n: nat)
    requires BodiesSafe(hs, s) && BlobEnabled(s, DropStaged(n))
    ensures var t := ApplyBlob(hs, s, DropStaged(n));
            t.bodies == s.bodies - {Staged(n)} && t.meta == s.meta && Unnamed(s, Staged(n))
  {
    forall h | h in s.meta.manifests ensures BodyKey(s.meta.manifests[h]) != Staged(n) {
      assert Owned(s, BodyKey(s.meta.manifests[h]), h);
    }
  }

  /** Deleting an own upload that was never published touches no manifest's body. */
  lemma DropKeepsStored(hs: Hasher, s: Sys, n: nat)
    requires Stored(hs, s) && UploadsSafe(hs, s) && BlobEnabled(s, DropStaged(n))
    ensures var t := ApplyBlob(hs, s, DropStaged(n)); Stored(hs, t) && UploadsSafe(hs, t) && Ages(s, t)
  {
  }

  lemma BlobStepKeepsBodies(hs: Hasher, s: Sys, a: BlobStep)
    requires BodiesSafe(hs, s) && BlobEnabled(s, a)
    ensures BodiesSafe(hs, ApplyBlob(hs, s, a)) && Ages(s, ApplyBlob(hs, s, a))
  {
    match a {
      case StageBody(n, body, wanted, key, session) => StageKeepsStored(hs, s, n, body, wanted, key, session);
      case PublishBlob(n) => PublishKeepsBodies(hs, s, n);
      case DropStaged(n) => DropKeepsStored(hs, s, n);
      case GiveUp(_) => assert Ages(s, ApplyBlob(hs, s, a));
    }
    PlansAge(s, ApplyBlob(hs, s, a));
  }

  ghost predicate SameBodyState(s: Sys, t: Sys) {
    && t.meta.manifests == s.meta.manifests && t.bodies == s.bodies && t.owner == s.owner && t.used == s.used
    && t.uploads == s.uploads && t.plans == s.plans && t.sweeps == s.sweeps
  }

  lemma OtherStepKeepsBodies(hs: Hasher, s: Sys, t: Sys)
    requires BodiesSafe(hs, s) && SameBodyState(s, t)
    ensures BodiesSafe(hs, t) && Ages(s, t)
  {
    PlansAge(s, t);
  }

  lemma DraftKeepsBodies(hs: Hasher, s: Sys, p: nat)
    requires BodiesSafe(hs, s) && PlanEnabled(s, ListManifests(p))
    ensures BodiesSafe(hs, DoListManifests(s, p)) && Ages(s, DoListManifests(s, p))
  {
    var t := DoListManifests(s, p);
    assert Ages(s, t);
    forall d | d in t.plans ensures KeysOwned(t, d.plan.objectKeys) {
      if d in s.plans {
        KeysAge(s, t, d.plan.objectKeys);
      }
    }
    forall w | w in t.sweeps ensures SweepSafe(t, t.sweeps[w]) {
      SweepAges(s, t, s.sweeps[w]);
    }
  }

  lemma VisitFrame(hs: Hasher, s: Sys, p: nat)
    requires PlanEnabled(s, VisitNode(p))
    ensures SameBodyState(s, DoVisit(hs, s, p))
  {
  }

  lemma WalkStepFrame(hs: Hasher, s: Sys, a: PlanStep)
    requires PlanEnabled(s, a) && !a.ListManifests?
    ensures SameBodyState(s, ApplyPlan(hs, s, a))
  {
    if a.VisitNode? {
      VisitFrame(hs, s, a.planner);
    }
  }

  lemma PlanStepKeepsBodies(hs: Hasher, s: Sys, a: PlanStep)
    requires BodiesSafe(hs, s) && PlanEnabled(s, a)
    ensures BodiesSafe(hs, ApplyPlan(hs, s, a)) && Ages(s, ApplyPlan(hs, s, a))
  {
    if a.ListManifests? {
      DraftKeepsBodies(hs, s, a.planner);
    } else {
      WalkStepFrame(hs, s, a);
      OtherStepKeepsBodies(hs, s, ApplyPlan(hs, s, a));
    }
  }

  lemma SweepStepKeepsBodies(hs: Hasher, s: Sys, a: SweepStep)
    requires BodiesSafe(hs, s) && SweepEnabled(s, a)
    ensures BodiesSafe(hs, ApplySweep(s, a)) && Ages(s, ApplySweep(s, a))
  {
    if a.AdvanceSweep? {
      AdvanceKeepsBodies(hs, s, a.sweeper);
    } else {
      var t := ApplySweep(s, a);
      assert Ages(s, t);
      forall d | d in t.plans ensures KeysOwned(t, d.plan.objectKeys) {
        KeysAge(s, t, d.plan.objectKeys);
      }
      forall w | w in t.sweeps && w != a.sweeper ensures SweepSafe(t, t.sweeps[w]) {
        SweepAges(s, t, s.sweeps[w]);
      }
    }
  }

  lemma SessionStepFrame(hs: Hasher, s: Sys, t: nat, a: SessionStep)
    requires SessionEnabled(s, a)
    ensures SameBodyState(s, ApplySession(hs, s, t, a))
  {
  }

  lemma RefStepFrame(meta: Meta, a: RefStep)
    ensures ApplyRef(meta, a) == meta.(refs := ApplyRef(meta, a).refs)
  {
  }

  lemma LeaseStepFrame(s: Sys, main: Bytes, a: LeaseStep)
    ensures SameBodyState(s, ApplyLease(s, main, a))
  {
  }

  lemma StepKeepsBodies(hs: Hasher, main: Bytes, s: Sys, a: Step)
    requires BodiesSafe(hs, s) && Enabled(s, a)
    ensures BodiesSafe(hs, Apply(hs, main, s, a)) && Ages(s, Apply(hs, main, s, a))
  {
    match a {
      case OfBlob(b) => BlobStepKeepsBodies(hs, s, b);
      case OfPlan(b) => PlanStepKeepsBodies(hs, s, b);
      case OfSweep(b) => SweepStepKeepsBodies(hs, s, b);
      case OfSession(t, b) =>
        SessionStepFrame(hs, s, t, b);
        OtherStepKeepsBodies(hs, s, ApplySession(hs, s, t, b));
      case OfRef(b) =>
        RefStepFrame(s.meta, b);
        OtherStepKeepsBodies(hs, s, s.(meta := ApplyRef(s.meta, b)));
      case OfLease(b) =>
        LeaseStepFrame(s, main, b);
        OtherStepKeepsBodies(hs, s, ApplyLease(s, main, b));
    }
  }

  /** The store a run may start from: every manifest has its body, and the object keys in use are on record. */
  ghost predicate CleanStart(hs: Hasher, s: Sys) {
    && Idle(s) && Stored(hs, s) && (forall k :: k in s.owner ==> k.Staged? && k.serial in s.used)
  }

  /** In every run and at every point of it, every manifest names a stored body of its size whose hash is its key. */
  lemma {:induction false} ManifestsAlwaysHaveBodies(
    hs: Hasher, main: Bytes, states: seq<Sys>, steps: seq<Step>, i: nat)
    requires IsRun(hs, main, states, steps) && CleanStart(hs, states[0]) && i < |states|
    ensures BodiesSafe(hs, states[i]) && BodiesMatch(hs, states[i].meta, states[i].bodies)
  {
    if i > 0 {
      ManifestsAlwaysHaveBodies(hs, main, states, steps, i - 1);
      assert Follows(hs, main, states[i - 1], steps[i - 1], states[i]);
      StepKeepsBodies(hs, main, states[i - 1], steps[i - 1]);
    }
  }

  lemma SweepDeletesUnnamed(hs: Hasher, s: Sys, a: SweepStep, k: ObjectKey)
    requires BodiesSafe(hs, s) && SweepEnabled(s, a)
    requires k in s.bodies && k !in ApplySweep(s, a).bodies
    ensures Unnamed(s, k) && exists h :: Owned(s, k, h)
  {
    if a.AdvanceSweep? {
      AdvanceSweepsAway(hs, s, a.sweeper);
    }
  }

  /** Some hash owned `k` once, and no manifest names it any more. */
  ghost predicate Abandoned(s: Sys, k: ObjectKey) {
    Unnamed(s, k) && exists h :: Owned(s, k, h)
  }

  lemma UnnamedForGood(hs: Hasher, main: Bytes, s: Sys, a: Step, t: Sys, k: ObjectKey)
    requires BodiesSafe(hs, s) && Follows(hs, main, s, a, t) && Abandoned(s, k)
    ensures BodiesSafe(hs, t) && Abandoned(t, k)
  {
    StepKeepsBodies(hs, main, s, a);
    var h :| Owned(s, k, h);
    KeyAges(s, t, k, h);
  }

  ghost predicate SafelyAbandoned(hs: Hasher, s: Sys, k: ObjectKey) {
    BodiesSafe(hs, s) && Abandoned(s, k)
  }

  lemma NextStaysAbandoned(hs: Hasher, main: Bytes, states: seq<Sys>, steps: seq<Step>, i: nat, k: ObjectKey)
    requires IsRun(hs, main, states, steps) && i < |steps|
    requires SafelyAbandoned(hs, states[i], k)
    ensures SafelyAbandoned(hs, states[i + 1], k)
  {
    assert Follows(hs, main, states[i], steps[i], states[i + 1]);
    UnnamedForGood(hs, main, states[i], steps[i], states[i + 1], k);
  }

  lemma {:induction false} UnnamedForEver(
    hs: Hasher, main: Bytes, states: seq<Sys>, steps: seq<Step>, i: nat, j: nat, k: ObjectKey)
    requires IsRun(hs, main, states, steps) && i <= j < |states|
    requires SafelyAbandoned(hs, states[i], k)
    ensures SafelyAbandoned(hs, states[j], k)
    decreases j - i
  {
    if i < j {
      NextStaysAbandoned(hs, main, states, steps, i, k);
      UnnamedForEver(hs, main, states, steps, i + 1, j, k);
    }
  }

  lemma SweptIsAbandoned(hs: Hasher, main: Bytes, states: seq<Sys>, steps: seq<Step>, i: nat, k: ObjectKey)
    requires IsRun(hs, main, states, steps) && i < |steps| && BodiesSafe(hs, states[i])
    requires steps[i].OfSweep? && k in states[i].bodies && k !in states[i + 1].bodies
    ensures Abandoned(states[i], k)
  {
    assert Follows(hs, main, states[i], steps[i], states[i + 1]);
    SweepDeletesUnnamed(hs, states[i], steps[i].sweep, k);
  }

  /** A body that a sweep deletes, however late, is named by no manifest then or ever after. */
  lemma LateDeleteHitsNothing(hs: Hasher, main: Bytes, states: seq<Sys>, steps: seq<Step>, i: nat, j: nat, k: ObjectKey)
    requires IsRun(hs, main, states, steps) && CleanStart(hs, states[0])
    requires i < |steps| && steps[i].OfSweep? && k in states[i].bodies && k !in states[i + 1].bodies
    requires i <= j < |states|
    ensures Unnamed(states[j], k)
  {
    ManifestsAlwaysHaveBodies(hs, main, states, steps, i);
    SweptIsAbandoned(hs, main, states, steps, i, k);
    UnnamedForEver(hs, main, states, steps, i, j, k);
  }
}
