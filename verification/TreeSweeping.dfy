/** What a sweep has done by the time it returns, whatever ran meanwhile. */
module TreeSweeping {
  import opened ByteStrings
  import opened Results
  import opened Nodes
  import opened TreeStore
  import opened TreeSystem
  import opened TreeBodies
  import opened TreeReads

  /** Nothing is stored under the key, and nothing ever will be again. */
  ghost predicate Gone(s: Sys, k: ObjectKey) {
    k !in s.bodies && (k.Staged? ==> k.serial in s.used)
  }

  lemma GoneStays(hs: Hasher, main: Bytes, s: Sys, a: Step, t: Sys, k: ObjectKey)
    requires Follows(hs, main, s, a, t) && Gone(s, k)
    ensures Gone(t, k)
  {
    StepKeepsFixed(hs, main, s, a, t, k, []);
    StepKeepsFixed(hs, main, s, a, t, k, [0]);
  }

  // ---- Bodies ----

  /** The bodies that the plan recorded for its first `i` blobs are gone. */
  ghost predicate FirstGone(s: Sys, plan: Plan, i: nat) {
    forall n :: 0 <= n < i && n < |plan.blobs| && plan.blobs[n] in plan.objectKeys ==>
      Gone(s, plan.objectKeys[plan.blobs[n]])
  }

  ghost predicate IsRecorded(plan: Plan, h: Bytes, key: ObjectKey) {
    h in plan.objectKeys ==> key == plan.objectKeys[h]
  }

  ghost predicate AllRecorded(plan: Plan, keys: map<Bytes, ObjectKey>) {
    forall h :: h in keys ==> IsRecorded(plan, h, keys[h])
  }

  /** How far a sweep has come with its bodies. */
  ghost predicate BodiesDone(s: Sys, plan: Plan, stage: Stage) {
    match stage
    case DeletingNodes(_) => true
    case ChoosingKey(i) => FirstGone(s, plan, i)
    case DeletingManifest(i, key) => FirstGone(s, plan, i) && i < |plan.blobs| && IsRecorded(plan, plan.blobs[i], key)
    case DeletingBody(i, key) => FirstGone(s, plan, i) && i < |plan.blobs| && IsRecorded(plan, plan.blobs[i], key)
    case CollectingKeys(_, keys) => AllRecorded(plan, keys)
    case Committing(keys) => AllRecorded(plan, keys)
    case DeletingBodies(i, keys) => FirstGone(s, plan, i) && AllRecorded(plan, keys)
  }

  lemma DoneStays(hs: Hasher, main: Bytes, s: Sys, a: Step, t: Sys, plan: Plan, stage: Stage)
    requires Follows(hs, main, s, a, t) && BodiesDone(s, plan, stage)
    ensures BodiesDone(t, plan, stage)
  {
    forall k | Gone(s, k) ensures Gone(t, k) {
      GoneStays(hs, main, s, a, t, k);
    }
  }

  /** A sweep deletes keys that are in use or never will be. */
  lemma DeletedIsGone(hs: Hasher, s: Sys, t: Sys, plan: Plan, h: Bytes)
    requires UploadsSafe(hs, s) && KeysOwned(s, plan.objectKeys) && h in plan.objectKeys
    requires t.used == s.used && plan.objectKeys[h] !in t.bodies
    ensures Gone(t, plan.objectKeys[h])
  {
    assert Owned(s, plan.objectKeys[h], h);
  }

  /** One more body is gone. */
  lemma OneMoreGone(hs: Hasher, s: Sys, t: Sys, plan: Plan, i: nat, key: ObjectKey)
    requires UploadsSafe(hs, s) && KeysOwned(s, plan.objectKeys) && t.used == s.used
    requires i < |plan.blobs| && FirstGone(s, plan, i) && IsRecorded(plan, plan.blobs[i], key)
    requires t.bodies == s.bodies - {key}
    ensures FirstGone(t, plan, i + 1)
  {
    forall n | 0 <= n < i + 1 && n < |plan.blobs| && plan.blobs[n] in plan.objectKeys
      ensures Gone(t, plan.objectKeys[plan.blobs[n]])
    {
      if n == i {
        DeletedIsGone(hs, s, t, plan, plan.blobs[i]);
      } else {
        assert Gone(s, plan.objectKeys[plan.blobs[n]]);
      }
    }
  }

  lemma AdvanceDoesBodies(hs: Hasher, s: Sys, w: nat)
    requires BodiesSafe(hs, s) && w in s.sweeps && BodiesDone(s, s.sweeps[w].draft.plan, s.sweeps[w].stage)
    requires NextStage(s, s.sweeps[w]).Some?
    ensures BodiesDone(DoAdvance(s, w), s.sweeps[w].draft.plan, NextStage(s, s.sweeps[w]).value)
  {
    var sw, t := s.sweeps[w], DoAdvance(s, w);
    var plan := sw.draft.plan;
    assert SweepSafe(s, sw);
    match sw.stage {
      case DeletingBody(i, key) => OneMoreGone(hs, s, t, plan, i, key);
      case DeletingBodies(i, keys) =>
        if i < |plan.blobs| {
          assert plan.blobs[i] in plan.blobs;
          OneMoreGone(hs, s, t, plan, i, keys[plan.blobs[i]]);
        }
      case _ =>
    }
  }

  // ---- Metadata ----

  /** The node was not stored at some moment from `a` to `n`. */
  ghost predicate NodeWent(states: seq<Sys>, a: nat, n: nat, id: Bytes) {
    n < |states| && exists m :: a <= m <= n && id !in states[m].meta.nodes
  }

  ghost predicate ManifestWent(states: seq<Sys>, a: nat, n: nat, h: Bytes) {
    n < |states| && exists m :: a <= m <= n && h !in states[m].meta.manifests
  }

  ghost predicate NodesWent(states: seq<Sys>, a: nat, n: nat, plan: Plan, i: nat) {
    forall k :: 0 <= k < i && k < |plan.nodes| ==> NodeWent(states, a, n, plan.nodes[k])
  }

  ghost predicate ManifestsWent(states: seq<Sys>, a: nat, n: nat, plan: Plan, i: nat) {
    forall k :: 0 <= k < i && k < |plan.blobs| ==> ManifestWent(states, a, n, plan.blobs[k])
  }

  /** How far a sweep that began at `a` has come with the metadata at `n`. */
  ghost predicate MetaDone(states: seq<Sys>, a: nat, n: nat, plan: Plan, stage: Stage) {
    match stage
    case DeletingNodes(i) => NodesWent(states, a, n, plan, i)
    case ChoosingKey(i) => NodesWent(states, a, n, plan, |plan.nodes|) && ManifestsWent(states, a, n, plan, i)
    case DeletingManifest(i, _) => NodesWent(states, a, n, plan, |plan.nodes|) && ManifestsWent(states, a, n, plan, i)
    case DeletingBody(i, _) => NodesWent(states, a, n, plan, |plan.nodes|) && ManifestsWent(states, a, n, plan, i + 1)
    case CollectingKeys(_, _) => true
    case Committing(_) => true
    case DeletingBodies(_, _) =>
      NodesWent(states, a, n, plan, |plan.nodes|) && ManifestsWent(states, a, n, plan, |plan.blobs|)
  }

  lemma WentEarlier(states: seq<Sys>, a: nat, n: nat)
    requires n + 1 < |states|
    ensures forall id :: NodeWent(states, a, n, id) ==> NodeWent(states, a, n + 1, id)
    ensures forall h :: ManifestWent(states, a, n, h) ==> ManifestWent(states, a, n + 1, h)
  {
  }

  lemma WentNow(states: seq<Sys>, a: nat, n: nat)
    requires a <= n < |states|
    ensures forall id :: id !in states[n].meta.nodes ==> NodeWent(states, a, n, id)
    ensures forall h :: h !in states[n].meta.manifests ==> ManifestWent(states, a, n, h)
  {
  }

  lemma DoneEarlier(states: seq<Sys>, a: nat, n: nat, plan: Plan, stage: Stage)
    requires n + 1 < |states| && MetaDone(states, a, n, plan, stage)
    ensures MetaDone(states, a, n + 1, plan, stage)
  {
    WentEarlier(states, a, n);
  }

  lemma AdvanceDoesMeta(states: seq<Sys>, a: nat, n: nat, w: nat)
    requires a <= n && n + 1 < |states| && w in states[n].sweeps && states[n + 1] == DoAdvance(states[n], w)
    requires var sw := states[n].sweeps[w];
             && MetaDone(states, a, n, sw.draft.plan, sw.stage) && NextStage(states[n], sw).Some?
             && (sw.stage.DeletingManifest? ==> sw.stage.i < |sw.draft.plan.blobs|)
    ensures var sw := states[n].sweeps[w]; MetaDone(states, a, n + 1, sw.draft.plan, NextStage(states[n], sw).value)
  {
    var sw := states[n].sweeps[w];
    DoneEarlier(states, a, n, sw.draft.plan, sw.stage);
    WentNow(states, a, n + 1);
    assert states[n + 1].meta == MetaAfter(states[n], sw);
  }

  // ---- Runs ----

  lemma OtherStepKeepsSweep(hs: Hasher, main: Bytes, s: Sys, a: Step, t: Sys, w: nat)
    requires Follows(hs, main, s, a, t) && w in s.sweeps && a != OfSweep(AdvanceSweep(w))
    ensures w in t.sweeps && t.sweeps[w] == s.sweeps[w]
  {
    match a {
      case OfBlob(b) => BlobStepKeepsSweeps(hs, s, b);
      case OfSession(n, b) => SessionStepFrame(hs, s, n, b);
      case OfLease(b) => LeaseStepFrame(s, main, b);
      case OfPlan(b) => PlanStepKeepsSweeps(hs, s, b);
      case OfSweep(b) => SweepStepKeepsOther(s, b, w);
      case OfRef(_) =>
    }
  }

  lemma PlanStepKeepsSweeps(hs: Hasher, s: Sys, a: PlanStep)
    requires PlanEnabled(s, a)
    ensures ApplyPlan(hs, s, a).sweeps == s.sweeps
  {
    if !a.ListManifests? {
      WalkStepFrame(hs, s, a);
    }
  }

  lemma SweepStepKeepsOther(s: Sys, a: SweepStep, w: nat)
    requires SweepEnabled(s, a) && w in s.sweeps && a != AdvanceSweep(w)
    ensures var t := ApplySweep(s, a); w in t.sweeps && t.sweeps[w] == s.sweeps[w]
  {
    if a.AdvanceSweep? {
      assert ApplySweep(s, a) == DoAdvance(s, a.sweeper);
    }
  }

  lemma BlobStepKeepsSweeps(hs: Hasher, s: Sys, a: BlobStep)
    requires BlobEnabled(s, a)
    ensures ApplyBlob(hs, s, a).sweeps == s.sweeps
  {
    if a.PublishBlob? {
      assert DoPublish(s, a.serial).sweeps == s.sweeps;
    }
  }

  /** Where the sweep `w` of `draft`, begun at `a`, stands at `n`. */
  ghost predicate SweepOk(states: seq<Sys>, a: nat, n: nat, w: nat, draft: Draft, mode: Mode) {
    && n < |states| && w in states[n].sweeps && states[n].sweeps[w].draft == draft && states[n].sweeps[w].mode == mode
    && BodiesDone(states[n], draft.plan, states[n].sweeps[w].stage)
    && MetaDone(states, a, n, draft.plan, states[n].sweeps[w].stage)
  }

  lemma SweepStarts(
    hs: Hasher, main: Bytes, states: seq<Sys>, steps: seq<Step>, a: nat, w: nat, draft: Draft, mode: Mode)
    requires IsRun(hs, main, states, steps) && a < |steps|
    requires steps[a] == OfSweep(StartSweep(w, draft, mode))
    ensures SweepOk(states, a, a + 1, w, draft, mode)
  {
    assert Follows(hs, main, states[a], steps[a], states[a + 1]);
  }

  lemma SweepAdvances(
    hs: Hasher, main: Bytes, states: seq<Sys>, steps: seq<Step>, a: nat, n: nat, w: nat, draft: Draft, mode: Mode)
    requires IsRun(hs, main, states, steps) && CleanStart(hs, states[0])
    requires a <= n < |steps| && SweepOk(states, a, n, w, draft, mode)
    requires w in states[n + 1].sweeps
    ensures SweepOk(states, a, n + 1, w, draft, mode)
  {
    var s, t := states[n], states[n + 1];
    assert Follows(hs, main, s, steps[n], t);
    ManifestsAlwaysHaveBodies(hs, main, states, steps, n);
    assert SweepSafe(s, s.sweeps[w]);
    if steps[n] == OfSweep(AdvanceSweep(w)) {
      AdvanceDoesBodies(hs, s, w);
      AdvanceDoesMeta(states, a, n, w);
    } else {
      OtherStepKeepsSweep(hs, main, s, steps[n], t, w);
      DoneStays(hs, main, s, steps[n], t, draft.plan, s.sweeps[w].stage);
      DoneEarlier(states, a, n, draft.plan, s.sweeps[w].stage);
    }
  }

  /** The sweep is under way at every moment after `a` up to `n`. */
  ghost predicate UnderWay(states: seq<Sys>, a: nat, n: nat, w: nat) {
    n < |states| && forall m :: a < m <= n ==> w in states[m].sweeps
  }

  lemma {:induction false} SweepStays(
    hs: Hasher, main: Bytes, states: seq<Sys>, steps: seq<Step>, a: nat, n: nat, w: nat, draft: Draft, mode: Mode)
    requires IsRun(hs, main, states, steps) && CleanStart(hs, states[0]) && a < n < |states|
    requires steps[a] == OfSweep(StartSweep(w, draft, mode)) && UnderWay(states, a, n, w)
    ensures SweepOk(states, a, n, w, draft, mode)
    decreases n
  {
    if n == a + 1 {
      SweepStarts(hs, main, states, steps, a, w, draft, mode);
    } else {
      SweepStays(hs, main, states, steps, a, n - 1, w, draft, mode);
      SweepAdvances(hs, main, states, steps, a, n - 1, w, draft, mode);
    }
  }

  /** The sweep's call returns without having been turned away by its fence. */
  ghost predicate Succeeds(s: Sys, t: Sys, w: nat) {
    w in s.sweeps && w !in t.sweeps && !s.sweeps[w].stage.Committing?
  }

  lemma {:induction false} GoneForEver(
    hs: Hasher, main: Bytes, states: seq<Sys>, steps: seq<Step>, i: nat, j: nat, k: ObjectKey)
    requires IsRun(hs, main, states, steps) && i <= j < |states| && Gone(states[i], k)
    ensures Gone(states[j], k)
    decreases j - i
  {
    if i < j {
      assert Follows(hs, main, states[i], steps[i], states[i + 1]);
      GoneStays(hs, main, states[i], steps[i], states[i + 1], k);
      GoneForEver(hs, main, states, steps, i + 1, j, k);
    }
  }

  lemma LastStep(hs: Hasher, main: Bytes, s: Sys, a: Step, t: Sys, w: nat)
    requires Follows(hs, main, s, a, t) && Succeeds(s, t, w)
    ensures var sw := s.sweeps[w];
            && (sw.stage.ChoosingKey? || sw.stage.DeletingBodies?) && sw.stage.i >= |sw.draft.plan.blobs|
            && t.bodies == s.bodies && t.used == s.used
  {
    if a != OfSweep(AdvanceSweep(w)) {
      OtherStepKeepsSweep(hs, main, s, a, t, w);
    }
  }

  /** In every run, with no lease discipline: by the time a sweep returns that its fence has not turned away, each node
      and each manifest of its plan has been deleted, though others may have stored them again since; and the bodies the
      plan recorded are gone for ever. */
  lemma ReturnedSweepDidAll(
    hs: Hasher, main: Bytes, states: seq<Sys>, steps: seq<Step>,
    a: nat, n: nat, w: nat, draft: Draft, mode: Mode, j: nat)
    requires IsRun(hs, main, states, steps) && CleanStart(hs, states[0]) && a < n < |steps|
    requires steps[a] == OfSweep(StartSweep(w, draft, mode)) && UnderWay(states, a, n, w)
    requires Succeeds(states[n], states[n + 1], w) && n < j < |states|
    ensures forall id :: id in draft.plan.nodes ==> NodeWent(states, a, n, id)
    ensures forall h :: h in draft.plan.blobs ==> ManifestWent(states, a, n, h)
    ensures forall h :: h in draft.plan.blobs && h in draft.plan.objectKeys ==>
              draft.plan.objectKeys[h] !in states[j].bodies
  {
    var plan := draft.plan;
    SweepStays(hs, main, states, steps, a, n, w, draft, mode);
    assert Follows(hs, main, states[n], steps[n], states[n + 1]);
    LastStep(hs, main, states[n], steps[n], states[n + 1], w);
    forall id | id in plan.nodes ensures NodeWent(states, a, n, id) {
      var k :| 0 <= k < |plan.nodes| && plan.nodes[k] == id;
    }
    forall h | h in plan.blobs ensures ManifestWent(states, a, n, h) {
      var k :| 0 <= k < |plan.blobs| && plan.blobs[k] == h;
    }
    forall h | h in plan.blobs && h in plan.objectKeys ensures plan.objectKeys[h] !in states[j].bodies {
      var k :| 0 <= k < |plan.blobs| && plan.blobs[k] == h;
      assert Gone(states[n], plan.objectKeys[h]);
      GoneForEver(hs, main, states, steps, n, j, plan.objectKeys[h]);
    }
  }

  /** A sweep is turned away exactly by a token that is not current when its transaction commits, and has then changed
      nothing. */
  lemma TurnedAwayIffStale(hs: Hasher, main: Bytes, s: Sys, a: Step, t: Sys, w: nat, lease: Bytes, token: nat)
    requires Follows(hs, main, s, a, t) && a == OfSweep(AdvanceSweep(w))
    requires s.sweeps[w].stage.Committing? && s.sweeps[w].mode == FencedBy(lease, token)
    ensures w !in t.sweeps <==> !(lease in s.meta.leases && s.meta.leases[lease] == token)
    ensures w !in t.sweeps ==> t.meta == s.meta && t.bodies == s.bodies
  {
  }
}
