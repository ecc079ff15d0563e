/** Building on what is merely present: enough as long as no node is put by a session that has lost the lease. */
module TreePresence {
  import opened ByteStrings
  import opened Results
  import opened Sorting
  import opened Nodes
  import opened TreeStore
  import opened Graphs
  import opened TreeSystem
  import opened TreeBodies
  import opened TreeClosure

  ghost predicate IsPublisher(s: Sys, t: nat) {
    t in s.roles && s.roles[t].Publisher?
  }

  /** A simpler client discipline: publishers put nodes over whatever blobs and children are present, and point refs at
      any stored node; collectors sweep, fenced, only plans started in their own session; a token serves one role; the
      shared lease is not released and refs are not moved without it. */
  ghost predicate Present(main: Bytes, s: Sys, a: Step) {
    match a
    case OfSession(t, PutNode(n)) =>
      IsPublisher(s, t) && Members(n.blobs) <= s.meta.manifests.Keys && Members(n.children) <= s.meta.nodes.Keys
    case OfRef(Swap(_, _, _)) => false
    case OfRef(SwapFenced(lease, t, _, _, _)) => lease == main && IsPublisher(s, t)
    case _ => Disciplined(main, s, a)
  }

  /** The guard that `PutNode` lacks: the session still holds the lease when it puts a node. */
  ghost predicate Guarded(main: Bytes, s: Sys, a: Step) {
    a.OfSession? && a.act.PutNode? ==> LeaseHeld(s.meta, main, a.session)
  }

  /** A collector's walks and plans in its own session know every stored node: it is marked, or listed for deletion. */
  ghost predicate ListedOk(main: Bytes, s: Sys) {
    Collecting(main, s) ==>
      && (forall p :: p in s.planners && s.planners[p].session == Token(s.meta, main) && s.planners[p].listed.Some? ==>
            s.meta.nodes.Keys <= s.planners[p].marked + Members(s.planners[p].listed.value))
      && (forall d :: d in s.plans && d.session == Token(s.meta, main) ==>
            s.meta.nodes.Keys <= d.marked + Members(d.plan.nodes))
  }

  /** The invariant: every stored node is whole, and the plans of the current collector are complete. */
  ghost predicate PresenceSafe(hs: Hasher, main: Bytes, s: Sys) {
    ClosureSafe(hs, main, s, s.meta.nodes.Keys) && ListedOk(main, s)
  }

  // ---- Each kind of step keeps it ----

  lemma PresentNodeIsHex(hs: Hasher, meta: Meta, bodies: Bodies, n: Node)
    requires Pins(hs) && BodiesMatch(hs, meta, bodies) && NodesSound(hs, meta)
    requires Members(n.blobs) <= meta.manifests.Keys && Members(n.children) <= meta.nodes.Keys
    ensures HexNode(n)
  {
    forall b | b in n.blobs ensures Hex(b) {
      assert b in Members(n.blobs);
      StoredBlobIsHex(hs, meta, bodies, b);
    }
    forall c | c in n.children ensures Hex(c) {
      assert c in Members(n.children);
      StoredIsHex(hs, meta, c);
    }
  }

  /** A node put under the guard joins the store while no collector holds the lease. */
  lemma PutNodeKeepsPresence(hs: Hasher, main: Bytes, s: Sys, t: nat, n: Node)
    requires Pins(hs) && BodiesMatch(hs, s.meta, s.bodies) && PresenceSafe(hs, main, s)
    requires Present(main, s, OfSession(t, PutNode(n))) && LeaseHeld(s.meta, main, t)
    ensures PresenceSafe(hs, main, ApplySession(hs, s, t, PutNode(n)))
  {
    var u, kept := ApplySession(hs, s, t, PutNode(n)), s.meta.nodes.Keys;
    PresentNodeIsHex(hs, s.meta, s.bodies, n);
    NodeKeepsStore(hs, s.meta, n, kept);
    NodeKeepsSessions(hs, main, s, t, n, kept, kept + {hs.id(n)});
    assert u.meta.nodes.Keys == kept + {hs.id(n)};
    assert t == Token(s.meta, main) && !Collecting(main, u);
  }

  lemma LearnedIsPresent(s: Sys, t: nat, id: Bytes)
    requires id in s.meta.nodes && Whole(s.meta, s.meta.nodes.Keys)
    ensures Learned(s, t, id).nodes <= s.meta.nodes.Keys && Learned(s, t, id).blobs <= s.meta.manifests.Keys
  {
    var n := s.meta.nodes[id];
    assert Members(n.children) <= s.meta.nodes.Keys && Members(n.blobs) <= s.meta.manifests.Keys;
  }

  lemma ReadNodeKeepsPresence(hs: Hasher, main: Bytes, s: Sys, t: nat, id: Bytes)
    requires Pins(hs) && ClosureSafe(hs, main, s, s.meta.nodes.Keys) && id in s.meta.nodes
    ensures ClosureSafe(hs, main, ApplySession(hs, s, t, ReadNode(id)), s.meta.nodes.Keys)
  {
    var learned, kept := Learned(s, t, id), s.meta.nodes.Keys;
    StoredIsHex(hs, s.meta, id);
    LearnedIsPresent(s, t, id);
    assert HexCert(learned);
    CertifyKeepsClosure(hs, main, s, t, learned.nodes, learned.blobs, kept, kept);
  }

  lemma ReadFrame(hs: Hasher, s: Sys, t: nat, a: SessionStep)
    requires SessionEnabled(s, a) && !a.PutNode?
    ensures ApplySession(hs, s, t, a) == s.(certs := ApplySession(hs, s, t, a).certs)
  {
  }

  lemma ReadKeepsPresence(hs: Hasher, main: Bytes, s: Sys, t: nat, a: SessionStep)
    requires Pins(hs) && BodiesMatch(hs, s.meta, s.bodies) && PresenceSafe(hs, main, s)
    requires SessionEnabled(s, a) && !a.PutNode?
    ensures PresenceSafe(hs, main, ApplySession(hs, s, t, a))
  {
    match a {
      case ReadRef(name) => ReadRefKeepsClosure(hs, main, s, t, name, s.meta.nodes.Keys);
      case ReadNode(id) => ReadNodeKeepsPresence(hs, main, s, t, id);
      case ReadManifest(h) => ReadManifestKeepsClosure(hs, main, s, t, h, s.meta.nodes.Keys);
    }
    ReadFrame(hs, s, t, a);
    SameMetaNodesListed(main, s, ApplySession(hs, s, t, a));
  }

  lemma BlobStepKeepsPresence(hs: Hasher, main: Bytes, s: Sys, a: BlobStep)
    requires Pins(hs) && BodiesSafe(hs, s) && PresenceSafe(hs, main, s) && BlobEnabled(s, a)
    ensures PresenceSafe(hs, main, ApplyBlob(hs, s, a))
  {
    BlobStepKeepsClosure(hs, main, s, a, s.meta.nodes.Keys);
    BlobStepFrame(hs, s, a);
    SameMetaNodesListed(main, s, ApplyBlob(hs, s, a));
  }

  /** A ref step only removes refs, or points one at a stored node while a publisher holds the lease. */
  lemma PresentRefEffect(main: Bytes, s: Sys, a: RefStep)
    requires Present(main, s, OfRef(a))
    ensures ApplyRef(s.meta, a) == s.meta.(refs := ApplyRef(s.meta, a).refs)
    ensures RefsShrink(s.meta, ApplyRef(s.meta, a))
            || (a.SwapFenced? && a.id in s.meta.nodes && IsPublisher(s, Token(s.meta, main))
                && forall r :: r in ApplyRef(s.meta, a).refs ==>
                     || ApplyRef(s.meta, a).refs[r].nodeId == a.id
                     || (r in s.meta.refs && ApplyRef(s.meta, a).refs[r] == s.meta.refs[r]))
  {
  }

  lemma RefStepKeepsPresence(hs: Hasher, main: Bytes, s: Sys, a: RefStep)
    requires PresenceSafe(hs, main, s) && Present(main, s, OfRef(a))
    ensures PresenceSafe(hs, main, s.(meta := ApplyRef(s.meta, a)))
  {
    var after := ApplyRef(s.meta, a);
    PresentRefEffect(main, s, a);
    if RefsShrink(s.meta, after) {
      RefsShrinkKeepsClosure(hs, main, s, after, s.meta.nodes.Keys);
    } else {
      RefsMoveKeepsClosure(hs, main, s, after, a.id, s.meta.nodes.Keys);
    }
    SameMetaNodesListed(main, s, s.(meta := after));
  }

  lemma SameMetaNodesListed(main: Bytes, s: Sys, u: Sys)
    requires ListedOk(main, s) && u.meta.nodes == s.meta.nodes && u.meta.leases == s.meta.leases
    requires u.roles == s.roles && u.planners == s.planners && u.plans == s.plans
    ensures ListedOk(main, u)
  {
  }

  lemma LeaseStepListed(main: Bytes, s: Sys, a: LeaseStep)
    requires SessionsOk(main, s) && ListedOk(main, s) && Disciplined(main, s, OfLease(a))
    ensures ListedOk(main, ApplyLease(s, main, a))
  {
    var u := ApplyLease(s, main, a);
    if a.AcquireLease? && a.lease == main {
      assert Token(u.meta, main) !in s.roles;
    } else {
      assert Token(u.meta, main) == Token(s.meta, main);
    }
  }

  lemma LeaseStepMeta(main: Bytes, s: Sys, a: LeaseStep)
    ensures ApplyLease(s, main, a).meta.nodes == s.meta.nodes
  {
  }

  lemma LeaseStepKeepsPresence(hs: Hasher, main: Bytes, s: Sys, a: LeaseStep)
    requires PresenceSafe(hs, main, s) && Disciplined(main, s, OfLease(a))
    ensures PresenceSafe(hs, main, ApplyLease(s, main, a))
  {
    LeaseStepKeepsClosure(hs, main, s, a, s.meta.nodes.Keys);
    LeaseStepListed(main, s, a);
    LeaseStepMeta(main, s, a);
  }

  lemma ListNodesIsComplete(s: Sys, p: nat)
    requires PlanEnabled(s, ListNodes(p))
    ensures s.meta.nodes.Keys <= s.planners[p].marked + Members(Ascending(s.meta.nodes.Keys - s.planners[p].marked))
  {
    AscendingSorts(s.meta.nodes.Keys - s.planners[p].marked);
  }

  /** One planner is replaced by one that still knows every stored node once it has listed them, or is gone. */
  lemma PlannerStepListed(main: Bytes, s: Sys, p: nat, next: Planner)
    requires ListedOk(main, s)
    requires next.listed.Some? ==> s.meta.nodes.Keys <= next.marked + Members(next.listed.value)
    ensures ListedOk(main, s.(planners := s.planners[p := next]))
    ensures ListedOk(main, s.(planners := s.planners - {p}))
  {
  }

  lemma DraftListed(main: Bytes, s: Sys, p: nat)
    requires ListedOk(main, s) && PlanEnabled(s, ListManifests(p))
    ensures ListedOk(main, DoListManifests(s, p))
  {
  }

  lemma VisitListed(hs: Hasher, main: Bytes, s: Sys, p: nat)
    requires ListedOk(main, s) && PlanEnabled(s, VisitNode(p))
    ensures ListedOk(main, DoVisit(hs, s, p))
  {
    var next := Visited(hs, s.meta, s.planners[p]);
    PlannerStepListed(main, s, p, if next.Some? then next.value else s.planners[p]);
  }

  lemma PlanStepListed(hs: Hasher, main: Bytes, s: Sys, a: PlanStep)
    requires ListedOk(main, s) && PlanEnabled(s, a)
    ensures ListedOk(main, ApplyPlan(hs, s, a))
  {
    match a {
      case StartPlan(p, t) => PlannerStepListed(main, s, p, Planner(t, RootList(s.meta), {}, {}, None));
      case VisitNode(p) => VisitListed(hs, main, s, p);
      case ListNodes(p) =>
        ListNodesIsComplete(s, p);
        var listed := Ascending(s.meta.nodes.Keys - s.planners[p].marked);
        PlannerStepListed(main, s, p, s.planners[p].(listed := Some(listed)));
      case ListManifests(p) => DraftListed(main, s, p);
    }
  }

  lemma PlanStepKeepsPresence(hs: Hasher, main: Bytes, s: Sys, a: PlanStep)
    requires Pins(hs) && PresenceSafe(hs, main, s) && PlanEnabled(s, a) && Disciplined(main, s, OfPlan(a))
    ensures PresenceSafe(hs, main, ApplyPlan(hs, s, a))
  {
    PlanStepKeepsClosure(hs, main, s, a, s.meta.nodes.Keys);
    PlanStepListed(hs, main, s, a);
    PlanStepLeaves(hs, s, a);
  }

  lemma ShrunkListed(main: Bytes, s: Sys, u: Sys)
    requires ListedOk(main, s) && u.meta.nodes.Keys <= s.meta.nodes.Keys && u.meta.leases == s.meta.leases
    requires u.roles == s.roles && u.planners == s.planners && u.plans == s.plans
    ensures ListedOk(main, u)
  {
  }

  /** After the collector's commit just the marked nodes are left. */
  lemma CommitKeepsPresence(hs: Hasher, main: Bytes, s: Sys, w: nat)
    requires PresenceSafe(hs, main, s) && w in s.sweeps && s.sweeps[w].stage.Committing?
    ensures PresenceSafe(hs, main, DoAdvance(s, w))
  {
    var d := s.sweeps[w].draft;
    CommitMeta(main, s, w);
    CommitLeaves(main, s, w);
    var less := CommitKeepsClosure(hs, main, s, w, s.meta.nodes.Keys);
    ShrunkListed(main, s, DoAdvance(s, w));
  }

  lemma CommitLeaves(main: Bytes, s: Sys, w: nat)
    requires SessionsOk(main, s) && SweepsFenced(main, s) && ListedOk(main, s) && WalksOk(main, s, s.meta.nodes.Keys)
    requires w in s.sweeps && s.sweeps[w].stage.Committing?
    ensures var d := s.sweeps[w].draft;
            DoAdvance(s, w).meta.nodes.Keys ==
            if LeaseHeld(s.meta, main, d.session) then s.meta.nodes.Keys * d.marked else s.meta.nodes.Keys
  {
    var d := s.sweeps[w].draft;
    CommitMeta(main, s, w);
    if LeaseHeld(s.meta, main, d.session) {
      CommitterHolds(main, s, w, s.meta.nodes.Keys);
      MarkedAreLeft(s.meta.nodes, d.plan.nodes, d.marked);
    }
  }

  lemma MarkedAreLeft(nodes: map<Bytes, Node>, listed: seq<Bytes>, marked: set<Bytes>)
    requires nodes.Keys <= marked + Members(listed) && forall id :: id in listed ==> id !in marked
    ensures (nodes - Members(listed)).Keys == nodes.Keys * marked
  {
  }

  lemma SweepStepKeepsPresence(hs: Hasher, main: Bytes, s: Sys, a: SweepStep)
    requires PresenceSafe(hs, main, s) && SweepEnabled(s, a) && Disciplined(main, s, OfSweep(a))
    ensures PresenceSafe(hs, main, ApplySweep(s, a))
  {
    if a.AdvanceSweep? && s.sweeps[a.sweeper].stage.Committing? {
      CommitKeepsPresence(hs, main, s, a.sweeper);
    } else {
      OtherSweepKeepsClosure(hs, main, s, a, s.meta.nodes.Keys);
      SameMetaNodesListed(main, s, ApplySweep(s, a));
    }
  }

  lemma StepKeepsPresence(hs: Hasher, main: Bytes, s: Sys, a: Step, u: Sys)
    requires Pins(hs) && BodiesSafe(hs, s) && PresenceSafe(hs, main, s)
    requires Follows(hs, main, s, a, u) && Present(main, s, a) && Guarded(main, s, a)
    ensures PresenceSafe(hs, main, u)
  {
    match a {
      case OfBlob(b) => BlobStepKeepsPresence(hs, main, s, b);
      case OfSession(t, b) =>
        if b.PutNode? {
          PutNodeKeepsPresence(hs, main, s, t, b.node);
        } else {
          ReadKeepsPresence(hs, main, s, t, b);
        }
      case OfRef(b) => RefStepKeepsPresence(hs, main, s, b);
      case OfLease(b) => LeaseStepKeepsPresence(hs, main, s, b);
      case OfPlan(b) => PlanStepKeepsPresence(hs, main, s, b);
      case OfSweep(b) => SweepStepKeepsPresence(hs, main, s, b);
    }
  }

  // ---- Whole runs ----

  ghost predicate PresentRun(hs: Hasher, main: Bytes, states: seq<Sys>, steps: seq<Step>) {
    && IsRun(hs, main, states, steps)
    && forall i {:trigger steps[i]} :: 0 <= i < |steps| ==> Present(main, states[i], steps[i])
  }

  ghost predicate GuardedRun(main: Bytes, states: seq<Sys>, steps: seq<Step>) {
    |states| > |steps| && forall i {:trigger steps[i]} :: 0 <= i < |steps| ==> Guarded(main, states[i], steps[i])
  }

  /** A consistent store without orphans: whatever the stored nodes refer to is there. */
  ghost predicate WholeStart(hs: Hasher, s: Sys) {
    && CleanStart(hs, s) && NodesSound(hs, s.meta) && Whole(s.meta, s.meta.nodes.Keys)
    && forall name :: name in s.meta.refs ==> s.meta.refs[name].nodeId in s.meta.nodes
  }

  lemma NextIsPresent(hs: Hasher, main: Bytes, states: seq<Sys>, steps: seq<Step>, i: nat)
    requires Pins(hs) && PresentRun(hs, main, states, steps) && GuardedRun(main, states, steps) && i < |steps|
    requires BodiesSafe(hs, states[i]) && PresenceSafe(hs, main, states[i])
    ensures BodiesSafe(hs, states[i + 1]) && PresenceSafe(hs, main, states[i + 1])
  {
    assert Follows(hs, main, states[i], steps[i], states[i + 1]);
    assert Present(main, states[i], steps[i]) && Guarded(main, states[i], steps[i]);
    StepKeepsBodies(hs, main, states[i], steps[i]);
    StepKeepsPresence(hs, main, states[i], steps[i], states[i + 1]);
  }

  lemma WholeStartIsSafe(hs: Hasher, main: Bytes, s: Sys)
    requires WholeStart(hs, s)
    ensures BodiesSafe(hs, s) && PresenceSafe(hs, main, s)
  {
  }

  lemma {:induction false} PresentRunStaysSafe(
    hs: Hasher, main: Bytes, states: seq<Sys>, steps: seq<Step>, i: nat, j: nat)
    requires Pins(hs) && PresentRun(hs, main, states, steps) && GuardedRun(main, states, steps) && i <= j < |states|
    requires BodiesSafe(hs, states[i]) && PresenceSafe(hs, main, states[i])
    ensures BodiesSafe(hs, states[j]) && PresenceSafe(hs, main, states[j])
    decreases j - i
  {
    if i < j {
      NextIsPresent(hs, main, states, steps, i);
      PresentRunStaysSafe(hs, main, states, steps, i + 1, j);
    }
  }

  /** In every interleaving of publishers that go by presence and collectors that share one lease, with crashes and
      stale holders, every ref stays intact, provided that nodes are put only while the putting session holds the
      lease. */
  lemma PresenceIsEnoughUnderGuard(hs: Hasher, main: Bytes, states: seq<Sys>, steps: seq<Step>, i: nat, name: Bytes)
    requires Pins(hs) && PresentRun(hs, main, states, steps) && GuardedRun(main, states, steps)
    requires WholeStart(hs, states[0]) && i < |states| && name in states[i].meta.refs
    ensures RefIntact(hs, states[i], name)
  {
    WholeStartIsSafe(hs, main, states[0]);
    PresentRunStaysSafe(hs, main, states, steps, 0, i);
    ReachesInside(states[i].meta.nodes, states[i].meta.nodes.Keys, states[i].meta.refs[name].nodeId);
  }
}
