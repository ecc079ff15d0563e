/** With lease discipline: publishers and collectors that share one lease never lose anything a ref can reach. */
module TreeClosure {
  import opened ByteStrings
  import opened Results
  import opened Sorting
  import opened Nodes
  import opened TreeStore
  import opened Graphs
  import opened TreeSystem
  import opened TreeBodies

  /** The client's side of the protocol. A publisher puts nodes and moves refs only on top of objects certified in its
      own session; a collector sweeps, fenced, only plans it started in its own session; a token serves one role; the
      shared lease is not released and refs are not moved without it. Reads, uploads, plans, ref deletions, other
      leases and stale holders are unrestricted. */
  ghost predicate Disciplined(main: Bytes, s: Sys, a: Step) {
    match a
    case OfSession(t, PutNode(n)) =>
      t in s.certs && Members(n.blobs) <= s.certs[t].blobs && Members(n.children) <= s.certs[t].nodes
    case OfRef(Swap(_, _, _)) => false
    case OfRef(SwapFenced(lease, t, _, id, _)) => lease == main && t in s.certs && id in s.certs[t].nodes
    case OfLease(ReleaseLease(lease, _)) => lease != main
    case OfPlan(StartPlan(_, t)) => t in s.roles
    case OfSweep(StartSweep(_, draft, mode)) =>
      mode == FencedBy(main, draft.session) && draft.session in s.roles && s.roles[draft.session].Collector?
    case _ => true
  }

  // ---- The invariant: `kept` is a complete set of nodes that holds all that matters ----

  ghost predicate RefsWithin(meta: Meta, kept: set<Bytes>) {
    forall name :: name in meta.refs ==> meta.refs[name].nodeId in kept
  }

  ghost predicate SessionsOk(main: Bytes, s: Sys) {
    && (forall t :: t in s.roles ==> 1 <= t <= Token(s.meta, main))
    && (forall t :: t in s.certs ==> t in s.roles && s.roles[t].Publisher?)
    && (forall p :: p in s.planners ==> s.planners[p].session in s.roles)
    && (forall d :: d in s.plans ==> d.session in s.roles)
  }

  ghost predicate HexCert(c: Cert) {
    (forall x :: x in c.nodes ==> Hex(x)) && (forall h :: h in c.blobs ==> Hex(h))
  }

  /** What the current publisher relies on is still there. */
  ghost predicate CertsOk(main: Bytes, s: Sys, kept: set<Bytes>) {
    && (forall t :: t in s.certs ==> HexCert(s.certs[t]))
    && (Token(s.meta, main) in s.certs ==>
          var c := s.certs[Token(s.meta, main)];
          c.nodes <= kept && c.blobs <= s.meta.manifests.Keys)
  }

  ghost predicate Collecting(main: Bytes, s: Sys) {
    Token(s.meta, main) in s.roles && s.roles[Token(s.meta, main)].Collector?
  }

  /** A walk's progress: roots are marked or pending, and marked nodes in `kept` have their successors accounted for. */
  ghost predicate Covers(meta: Meta, kept: set<Bytes>, marked: set<Bytes>, stack: seq<Bytes>, live: set<Bytes>) {
    && (forall name :: name in meta.refs ==> meta.refs[name].nodeId in marked || meta.refs[name].nodeId in stack)
    && (forall x :: x in kept && x in marked && x in meta.nodes ==>
          && (forall c :: c in meta.nodes[x].children ==> c in marked || c in stack)
          && (forall h :: h in meta.nodes[x].blobs ==> h in live))
  }

  ghost predicate PlannerOk(meta: Meta, kept: set<Bytes>, p: Planner) {
    && Covers(meta, kept, p.marked, p.stack, p.live)
    && (p.listed.Some? ==> p.stack == [] && forall id :: id in p.listed.value ==> id !in p.marked)
  }

  ghost predicate DraftOk(meta: Meta, kept: set<Bytes>, d: Draft) {
    && Covers(meta, kept, d.marked, [], d.live)
    && (forall id :: id in d.plan.nodes ==> id !in d.marked)
    && (forall h :: h in d.plan.blobs ==> h !in d.live)
  }

  /** While a collector holds the lease, its walks and plans spare everything the refs need. */
  ghost predicate WalksOk(main: Bytes, s: Sys, kept: set<Bytes>) {
    Collecting(main, s) ==>
      && (forall p :: p in s.planners && s.planners[p].session == Token(s.meta, main) ==>
            PlannerOk(s.meta, kept, s.planners[p]))
      && (forall d :: d in s.plans && d.session == Token(s.meta, main) ==> DraftOk(s.meta, kept, d))
  }

  ghost predicate SweepsFenced(main: Bytes, s: Sys) {
    forall w :: w in s.sweeps ==>
      var sw := s.sweeps[w];
      && sw.draft in s.plans && sw.mode == FencedBy(main, sw.draft.session)
      && sw.draft.session in s.roles && s.roles[sw.draft.session].Collector?
      && (sw.stage.CollectingKeys? || sw.stage.Committing? || sw.stage.DeletingBodies?)
  }

  ghost predicate StoreOk(hs: Hasher, meta: Meta, kept: set<Bytes>) {
    NodesSound(hs, meta) && Whole(meta, kept) && RefsWithin(meta, kept)
  }

  ghost predicate ClosureSafe(hs: Hasher, main: Bytes, s: Sys, kept: set<Bytes>) {
    && StoreOk(hs, s.meta, kept)
    && SessionsOk(main, s) && CertsOk(main, s, kept) && WalksOk(main, s, kept) && SweepsFenced(main, s)
  }

  // ---- Each kind of step keeps it ----

  lemma CertifyOk(main: Bytes, s: Sys, t: nat, nodes: set<Bytes>, blobs: set<Bytes>, kept: set<Bytes>, u: Sys)
    requires CertsOk(main, s, kept) && HexCert(Cert(nodes, blobs))
    requires u.certs == Certify(s.certs, t, nodes, blobs)
    requires Token(u.meta, main) == Token(s.meta, main) && s.meta.manifests.Keys <= u.meta.manifests.Keys
    requires t == Token(s.meta, main) && t in s.certs ==> nodes <= kept && blobs <= u.meta.manifests.Keys
    ensures CertsOk(main, u, kept)
  {
  }

  lemma WalksSurviveGrowth(main: Bytes, s: Sys, u: Sys, kept: set<Bytes>)
    requires WalksOk(main, s, kept) && Whole(s.meta, kept)
    requires u.meta.leases == s.meta.leases && u.meta.refs == s.meta.refs && u.roles == s.roles
    requires u.planners == s.planners && u.plans == s.plans
    requires forall x :: x in s.meta.nodes ==> x in u.meta.nodes && u.meta.nodes[x] == s.meta.nodes[x]
    ensures WalksOk(main, u, kept)
  {
    if Collecting(main, s) {
      forall p | p in s.planners && s.planners[p].session == Token(s.meta, main)
        ensures PlannerOk(u.meta, kept, s.planners[p])
      {
        assert PlannerOk(s.meta, kept, s.planners[p]);
      }
      forall d | d in s.plans && d.session == Token(s.meta, main) ensures DraftOk(u.meta, kept, d) {
        assert DraftOk(s.meta, kept, d);
      }
    }
  }

  lemma PublishGrows(hs: Hasher, s: Sys, n: nat)
    requires Pins(hs) && BodiesSafe(hs, s) && BlobEnabled(s, PublishBlob(n))
    ensures var u, h := DoPublish(s, n), s.uploads[n].hash;
            && Hex(h) && h in u.meta.manifests && s.meta.manifests.Keys <= u.meta.manifests.Keys
            && u.meta.nodes == s.meta.nodes && u.meta.refs == s.meta.refs && u.meta.leases == s.meta.leases
            && u.certs == Certify(s.certs, s.uploads[n].session, {}, {h})
  {
    assert s.uploads[n].hash == hs.sum(s.bodies[Staged(n)]);
  }

  lemma PublishKeepsClosure(hs: Hasher, main: Bytes, s: Sys, n: nat, kept: set<Bytes>)
    requires Pins(hs) && BodiesSafe(hs, s) && ClosureSafe(hs, main, s, kept) && BlobEnabled(s, PublishBlob(n))
    ensures ClosureSafe(hs, main, DoPublish(s, n), kept)
  {
    var u := DoPublish(s, n);
    PublishGrows(hs, s, n);
    CertifyOk(main, s, s.uploads[n].session, {}, {s.uploads[n].hash}, kept, u);
    WalksSurviveGrowth(main, s, u, kept);
    assert StoreOk(hs, u.meta, kept);
  }

  lemma BlobStepKeepsClosure(hs: Hasher, main: Bytes, s: Sys, a: BlobStep, kept: set<Bytes>)
    requires Pins(hs) && BodiesSafe(hs, s) && ClosureSafe(hs, main, s, kept) && BlobEnabled(s, a)
    ensures ClosureSafe(hs, main, ApplyBlob(hs, s, a), kept)
  {
    if a.PublishBlob? {
      PublishKeepsClosure(hs, main, s, a.serial, kept);
    }
  }

  lemma CertifiedNodeIsHex(s: Sys, t: nat, n: Node)
    requires t in s.certs && HexCert(s.certs[t])
    requires Members(n.blobs) <= s.certs[t].blobs && Members(n.children) <= s.certs[t].nodes
    ensures HexNode(n)
  {
    forall b | b in n.blobs ensures Hex(b) {
      assert b in Members(n.blobs);
    }
    forall c | c in n.children ensures Hex(c) {
      assert c in Members(n.children);
    }
  }

  lemma NormalMembers(n: Node)
    ensures forall c :: c in Normal(n).children <==> c in n.children
    ensures forall h :: h in Normal(n).blobs <==> h in n.blobs
  {
    NormalKeepsEncoding(n);
    forall c ensures c in Normal(n).children <==> c in n.children {
      assert c in multiset(Normal(n).children) <==> c in multiset(n.children);
    }
    forall h ensures h in Normal(n).blobs <==> h in n.blobs {
      assert h in multiset(Normal(n).blobs) <==> h in multiset(n.blobs);
    }
  }

  lemma StoreNodeGrows(hs: Hasher, meta: Meta, n: Node)
    requires Pins(hs) && NodesSound(hs, meta) && HexNode(n)
    ensures var after := StoreNode(hs, meta, n);
            && NodesSound(hs, after) && hs.id(n) in after.nodes && after.nodes[hs.id(n)] == Normal(n)
            && (forall x :: x in meta.nodes ==> x in after.nodes && after.nodes[x] == meta.nodes[x])
  {
    StoreNodeIsIdempotent(hs, meta, n);
  }

  /** A node whose successors are kept joins the kept set; any other is merely stored. */
  lemma NodeKeepsStore(hs: Hasher, meta: Meta, n: Node, kept: set<Bytes>)
    requires Pins(hs) && StoreOk(hs, meta, kept) && HexNode(n)
    ensures StoreOk(hs, StoreNode(hs, meta, n), kept)
    ensures Members(n.children) <= kept && Members(n.blobs) <= meta.manifests.Keys ==>
              StoreOk(hs, StoreNode(hs, meta, n), kept + {hs.id(n)})
  {
    StoreNodeGrows(hs, meta, n);
    NormalMembers(n);
    var after := StoreNode(hs, meta, n);
    assert Whole(after, kept);
    if Members(n.children) <= kept && Members(n.blobs) <= meta.manifests.Keys {
      forall c | c in Normal(n).children ensures c in kept {
        assert c in Members(n.children);
      }
      forall h | h in Normal(n).blobs ensures h in meta.manifests {
        assert h in Members(n.blobs);
      }
      assert Whole(after, kept + {hs.id(n)});
    }
  }

  lemma NodeKeepsSessions(hs: Hasher, main: Bytes, s: Sys, t: nat, n: Node, kept: set<Bytes>, grown: set<Bytes>)
    requires SessionsOk(main, s) && CertsOk(main, s, kept) && SweepsFenced(main, s) && Hex(hs.id(n)) && kept <= grown
    requires t == Token(s.meta, main) && t in s.certs ==> hs.id(n) in grown
    ensures var u := ApplySession(hs, s, t, PutNode(n));
            SessionsOk(main, u) && CertsOk(main, u, grown) && SweepsFenced(main, u)
  {
    var u := ApplySession(hs, s, t, PutNode(n));
    assert CertsOk(main, s, grown);
    CertifyOk(main, s, t, {hs.id(n)}, {}, grown, u);
  }

  lemma PublisherIsNoCollector(main: Bytes, s: Sys, kept: set<Bytes>)
    requires SessionsOk(main, s) && Token(s.meta, main) in s.certs
    ensures !Collecting(main, s) && WalksOk(main, s, kept)
  {
  }

  /** A node put by the current publisher joins the kept set; one put by a stale holder is merely stored. */
  lemma PutNodeKeepsClosure(hs: Hasher, main: Bytes, s: Sys, t: nat, n: Node, kept: set<Bytes>)
    returns (grown: set<Bytes>)
    requires Pins(hs) && ClosureSafe(hs, main, s, kept) && Disciplined(main, s, OfSession(t, PutNode(n)))
    ensures ClosureSafe(hs, main, ApplySession(hs, s, t, PutNode(n)), grown)
  {
    var u := ApplySession(hs, s, t, PutNode(n));
    CertifiedNodeIsHex(s, t, n);
    NodeKeepsStore(hs, s.meta, n, kept);
    if t == Token(s.meta, main) {
      grown := kept + {hs.id(n)};
      NodeKeepsSessions(hs, main, s, t, n, kept, grown);
      PublisherIsNoCollector(main, u, grown);
    } else {
      grown := kept;
      NodeKeepsSessions(hs, main, s, t, n, kept, grown);
      StoreNodeGrows(hs, s.meta, n);
      WalksSurviveGrowth(main, s, u, kept);
    }
  }

  /** Only certificates change: the new ones must be hex, and kept if they are the current publisher's. */
  lemma CertifyKeepsClosure(hs: Hasher, main: Bytes, s: Sys, t: nat, nodes: set<Bytes>, blobs: set<Bytes>,
                            kept: set<Bytes>, grown: set<Bytes>)
    requires ClosureSafe(hs, main, s, kept) && HexCert(Cert(nodes, blobs))
    requires kept <= grown && Whole(s.meta, grown)
    requires t == Token(s.meta, main) && t in s.certs ==> nodes <= grown && blobs <= s.meta.manifests.Keys
    requires grown == kept || (t == Token(s.meta, main) && t in s.certs)
    ensures ClosureSafe(hs, main, s.(certs := Certify(s.certs, t, nodes, blobs)), grown)
  {
    var u := s.(certs := Certify(s.certs, t, nodes, blobs));
    assert CertsOk(main, s, grown);
    CertifyOk(main, s, t, nodes, blobs, grown, u);
  }

  lemma StoredIsHex(hs: Hasher, meta: Meta, id: Bytes)
    requires Pins(hs) && NodesSound(hs, meta) && id in meta.nodes
    ensures Hex(id) && id != [] && HexCert(Cert(Members(meta.nodes[id].children), Members(meta.nodes[id].blobs)))
  {
    assert hs.id(meta.nodes[id]) == id;
  }

  lemma NodeJoinsKept(main: Bytes, s: Sys, t: nat, id: Bytes, kept: set<Bytes>)
    requires CertsOk(main, s, kept) && Whole(s.meta, kept) && t == Token(s.meta, main) && t in s.certs
    requires id in s.meta.nodes
    requires Members(s.meta.nodes[id].children) <= s.certs[t].nodes
              && Members(s.meta.nodes[id].blobs) <= s.certs[t].blobs
    ensures Whole(s.meta, kept + {id})
  {
    var n := s.meta.nodes[id];
    forall c | c in n.children ensures c in kept {
      assert c in Members(n.children);
    }
    forall h | h in n.blobs ensures h in s.meta.manifests {
      assert h in Members(n.blobs);
    }
  }

  lemma SuccessorsKept(main: Bytes, s: Sys, t: nat, id: Bytes, kept: set<Bytes>)
    requires CertsOk(main, s, kept) && Whole(s.meta, kept) && t == Token(s.meta, main) && t in s.certs
    requires id in s.certs[t].nodes && id in s.meta.nodes
    ensures Members(s.meta.nodes[id].children) <= kept && Members(s.meta.nodes[id].blobs) <= s.meta.manifests.Keys
  {
  }

  lemma LearnedIsKept(main: Bytes, s: Sys, t: nat, id: Bytes, kept: set<Bytes>) returns (grown: set<Bytes>)
    requires CertsOk(main, s, kept) && Whole(s.meta, kept) && t == Token(s.meta, main) && t in s.certs
    requires id in s.meta.nodes
    ensures kept <= grown && Whole(s.meta, grown)
    ensures Learned(s, t, id).nodes <= grown && Learned(s, t, id).blobs <= s.meta.manifests.Keys
  {
    grown := kept;
    if id in s.certs[t].nodes {
      SuccessorsKept(main, s, t, id, kept);
    } else if Learned(s, t, id).nodes == {id} {
      NodeJoinsKept(main, s, t, id, kept);
      grown := kept + {id};
    }
  }

  lemma LearnedIsHex(hs: Hasher, s: Sys, t: nat, id: Bytes)
    requires Pins(hs) && NodesSound(hs, s.meta) && id in s.meta.nodes
    ensures HexCert(Learned(s, t, id))
  {
    StoredIsHex(hs, s.meta, id);
  }

  lemma LearningGrows(main: Bytes, s: Sys, t: nat, id: Bytes, kept: set<Bytes>) returns (grown: set<Bytes>)
    requires CertsOk(main, s, kept) && Whole(s.meta, kept) && id in s.meta.nodes
    ensures kept <= grown && Whole(s.meta, grown)
    ensures grown == kept || (t == Token(s.meta, main) && t in s.certs)
    ensures t == Token(s.meta, main) && t in s.certs ==>
              Learned(s, t, id).nodes <= grown && Learned(s, t, id).blobs <= s.meta.manifests.Keys
  {
    grown := kept;
    if t == Token(s.meta, main) && t in s.certs {
      grown := LearnedIsKept(main, s, t, id, kept);
    }
  }

  lemma ReadNodeKeepsClosure(hs: Hasher, main: Bytes, s: Sys, t: nat, id: Bytes, kept: set<Bytes>)
    returns (grown: set<Bytes>)
    requires Pins(hs) && ClosureSafe(hs, main, s, kept) && id in s.meta.nodes
    ensures ClosureSafe(hs, main, ApplySession(hs, s, t, ReadNode(id)), grown)
  {
    LearnedIsHex(hs, s, t, id);
    grown := LearningGrows(main, s, t, id, kept);
    CertifyKeepsClosure(hs, main, s, t, Learned(s, t, id).nodes, Learned(s, t, id).blobs, kept, grown);
  }

  lemma ReadRefKeepsClosure(hs: Hasher, main: Bytes, s: Sys, t: nat, name: Bytes, kept: set<Bytes>)
    requires Pins(hs) && ClosureSafe(hs, main, s, kept) && name in s.meta.refs
    ensures ClosureSafe(hs, main, ApplySession(hs, s, t, ReadRef(name)), kept)
  {
    RefIsHexAndKept(hs, s.meta, name, kept);
    CertifyKeepsClosure(hs, main, s, t, {s.meta.refs[name].nodeId}, {}, kept, kept);
  }

  lemma RefIsHexAndKept(hs: Hasher, meta: Meta, name: Bytes, kept: set<Bytes>)
    requires Pins(hs) && StoreOk(hs, meta, kept) && name in meta.refs
    ensures HexCert(Cert({meta.refs[name].nodeId}, {})) && meta.refs[name].nodeId in kept
  {
    StoredIsHex(hs, meta, meta.refs[name].nodeId);
  }

  lemma StoredBlobIsHex(hs: Hasher, meta: Meta, bodies: Bodies, h: Bytes)
    requires Pins(hs) && BodiesMatch(hs, meta, bodies) && h in meta.manifests
    ensures Hex(h)
  {
    assert Hex(hs.sum(bodies[BodyKey(meta.manifests[h])]));
  }

  lemma ReadManifestKeepsClosure(hs: Hasher, main: Bytes, s: Sys, t: nat, h: Bytes, kept: set<Bytes>)
    requires Pins(hs) && BodiesMatch(hs, s.meta, s.bodies) && ClosureSafe(hs, main, s, kept) && h in s.meta.manifests
    ensures ClosureSafe(hs, main, ApplySession(hs, s, t, ReadManifest(h)), kept)
  {
    StoredBlobIsHex(hs, s.meta, s.bodies, h);
    CertifyKeepsClosure(hs, main, s, t, {}, {h}, kept, kept);
  }

  lemma SessionStepKeepsClosure(hs: Hasher, main: Bytes, s: Sys, t: nat, a: SessionStep, kept: set<Bytes>)
    returns (grown: set<Bytes>)
    requires Pins(hs) && BodiesMatch(hs, s.meta, s.bodies) && ClosureSafe(hs, main, s, kept)
    requires SessionEnabled(s, a) && Disciplined(main, s, OfSession(t, a))
    ensures ClosureSafe(hs, main, ApplySession(hs, s, t, a), grown)
  {
    grown := kept;
    match a {
      case PutNode(n) => grown := PutNodeKeepsClosure(hs, main, s, t, n, kept);
      case ReadRef(name) => ReadRefKeepsClosure(hs, main, s, t, name, kept);
      case ReadNode(id) => grown := ReadNodeKeepsClosure(hs, main, s, t, id, kept);
      case ReadManifest(h) => ReadManifestKeepsClosure(hs, main, s, t, h, kept);
    }
  }

  predicate RefsShrink(meta: Meta, after: Meta) {
    after == meta.(refs := after.refs)
    && forall r :: r in after.refs ==> r in meta.refs && after.refs[r] == meta.refs[r]
  }

  /** A disciplined ref step only removes refs, or points one at a node the current publisher has certified. */
  lemma RefStepEffect(main: Bytes, s: Sys, a: RefStep)
    requires Disciplined(main, s, OfRef(a))
    ensures RefsShrink(s.meta, ApplyRef(s.meta, a))
            || (a.SwapFenced? && a.token == Token(s.meta, main)
                && ApplyRef(s.meta, a) == s.meta.(refs := ApplyRef(s.meta, a).refs)
                && forall r :: r in ApplyRef(s.meta, a).refs ==>
                     || ApplyRef(s.meta, a).refs[r].nodeId == a.id
                     || (r in s.meta.refs && ApplyRef(s.meta, a).refs[r] == s.meta.refs[r]))
  {
  }

  lemma RefStepKeepsClosure(hs: Hasher, main: Bytes, s: Sys, a: RefStep, kept: set<Bytes>)
    requires ClosureSafe(hs, main, s, kept) && Disciplined(main, s, OfRef(a))
    ensures ClosureSafe(hs, main, s.(meta := ApplyRef(s.meta, a)), kept)
  {
    var after := ApplyRef(s.meta, a);
    RefStepEffect(main, s, a);
    if RefsShrink(s.meta, after) {
      RefsShrinkKeepsClosure(hs, main, s, after, kept);
    } else {
      RefsMoveKeepsClosure(hs, main, s, after, a.id, kept);
    }
  }

  /** Sessions, certificates and sweeps do not depend on the refs. */
  lemma RefsKeepSessions(main: Bytes, s: Sys, after: Meta, kept: set<Bytes>)
    requires after == s.meta.(refs := after.refs)
    requires SessionsOk(main, s) && CertsOk(main, s, kept) && SweepsFenced(main, s)
    ensures var u := s.(meta := after); SessionsOk(main, u) && CertsOk(main, u, kept) && SweepsFenced(main, u)
  {
  }

  lemma RefsKeepStore(hs: Hasher, meta: Meta, after: Meta, kept: set<Bytes>)
    requires StoreOk(hs, meta, kept) && after == meta.(refs := after.refs) && RefsWithin(after, kept)
    ensures StoreOk(hs, after, kept)
  {
  }

  /** Refs move only to kept nodes, and not at all while a collector holds the lease. */
  lemma RefsMoveKeepsClosure(hs: Hasher, main: Bytes, s: Sys, after: Meta, id: Bytes, kept: set<Bytes>)
    requires ClosureSafe(hs, main, s, kept) && after == s.meta.(refs := after.refs)
    requires !Collecting(main, s) && id in kept
    requires forall r :: r in after.refs ==>
              after.refs[r].nodeId == id || (r in s.meta.refs && after.refs[r] == s.meta.refs[r])
    ensures ClosureSafe(hs, main, s.(meta := after), kept)
  {
    RefsKeepStore(hs, s.meta, after, kept);
    RefsKeepSessions(main, s, after, kept);
    assert !Collecting(main, s.(meta := after));
  }

  lemma RefsShrinkKeepsClosure(hs: Hasher, main: Bytes, s: Sys, after: Meta, kept: set<Bytes>)
    requires ClosureSafe(hs, main, s, kept) && RefsShrink(s.meta, after)
    ensures ClosureSafe(hs, main, s.(meta := after), kept)
  {
    RefsKeepStore(hs, s.meta, after, kept);
    RefsKeepSessions(main, s, after, kept);
    RefsShrinkKeepsWalks(main, s, s.(meta := after), kept);
  }

  lemma RefsShrinkKeepsWalks(main: Bytes, s: Sys, u: Sys, kept: set<Bytes>)
    requires WalksOk(main, s, kept) && u == s.(meta := s.meta.(refs := u.meta.refs))
    requires forall r :: r in u.meta.refs ==> r in s.meta.refs && u.meta.refs[r] == s.meta.refs[r]
    ensures WalksOk(main, u, kept)
  {
    if Collecting(main, s) {
      forall p | p in s.planners && s.planners[p].session == Token(s.meta, main)
        ensures PlannerOk(u.meta, kept, s.planners[p])
      {
        assert PlannerOk(s.meta, kept, s.planners[p]);
      }
      forall d | d in s.plans && d.session == Token(s.meta, main) ensures DraftOk(u.meta, kept, d) {
        assert DraftOk(s.meta, kept, d);
      }
    }
  }

  lemma AcquireKeepsSessions(main: Bytes, s: Sys, role: Role)
    requires SessionsOk(main, s)
    ensures var u := DoAcquire(s, main, main, role);
            && SessionsOk(main, u) && Token(u.meta, main) !in s.roles
            && u == s.(meta := s.meta.(leases := u.meta.leases), roles := u.roles, certs := u.certs)
            && u.roles == s.roles[Token(u.meta, main) := role]
            && (Token(u.meta, main) in u.certs ==> u.certs == s.certs[Token(u.meta, main) := Cert({}, {})])
            && (Token(u.meta, main) !in u.certs ==> u.certs == s.certs)
  {
  }

  /** Nothing in flight belongs to the new session. */
  lemma NewSessionIsOk(main: Bytes, s: Sys, u: Sys, kept: set<Bytes>)
    requires SessionsOk(main, s) && CertsOk(main, s, kept) && SweepsFenced(main, s)
    requires u == s.(meta := s.meta.(leases := u.meta.leases), roles := u.roles, certs := u.certs)
    requires Token(u.meta, main) !in s.roles && Token(u.meta, main) in u.roles
    requires u.roles == s.roles[Token(u.meta, main) := u.roles[Token(u.meta, main)]]
    requires Token(u.meta, main) in u.certs ==> u.certs == s.certs[Token(u.meta, main) := Cert({}, {})]
    requires Token(u.meta, main) !in u.certs ==> u.certs == s.certs
    ensures CertsOk(main, u, kept) && WalksOk(main, u, kept) && SweepsFenced(main, u)
  {
  }

  /** A new token starts a session that nothing in flight belongs to. */
  lemma AcquireKeepsClosure(hs: Hasher, main: Bytes, s: Sys, role: Role, kept: set<Bytes>)
    requires ClosureSafe(hs, main, s, kept)
    ensures ClosureSafe(hs, main, DoAcquire(s, main, main, role), kept)
  {
    AcquireKeepsSessions(main, s, role);
    NewSessionIsOk(main, s, DoAcquire(s, main, main, role), kept);
  }

  lemma OtherLeaseKeepsClosure(hs: Hasher, main: Bytes, s: Sys, meta: Meta, kept: set<Bytes>)
    requires ClosureSafe(hs, main, s, kept)
    requires meta == s.meta.(leases := meta.leases) && Token(meta, main) == Token(s.meta, main)
    ensures ClosureSafe(hs, main, s.(meta := meta), kept)
  {
    var u := s.(meta := meta);
    if Collecting(main, u) {
      forall p | p in s.planners && s.planners[p].session == Token(s.meta, main)
        ensures PlannerOk(u.meta, kept, s.planners[p])
      {
        assert PlannerOk(s.meta, kept, s.planners[p]);
      }
      forall d | d in s.plans && d.session == Token(s.meta, main) ensures DraftOk(u.meta, kept, d) {
        assert DraftOk(s.meta, kept, d);
      }
    }
  }

  lemma LeaseStepKeepsClosure(hs: Hasher, main: Bytes, s: Sys, a: LeaseStep, kept: set<Bytes>)
    requires ClosureSafe(hs, main, s, kept) && Disciplined(main, s, OfLease(a))
    ensures ClosureSafe(hs, main, ApplyLease(s, main, a), kept)
  {
    if a.AcquireLease? && a.lease == main {
      AcquireKeepsClosure(hs, main, s, a.role, kept);
    } else {
      OtherLeaseKeepsClosure(hs, main, s, ApplyLease(s, main, a).meta, kept);
    }
  }

  lemma RootListHoldsRoots(meta: Meta, names: seq<Bytes>)
    ensures forall name :: name in names && name in meta.refs && meta.refs[name].nodeId != [] ==>
              meta.refs[name].nodeId in RootsOf(meta, names)
  {
  }

  lemma VisitedStaysOk(hs: Hasher, meta: Meta, kept: set<Bytes>, p: Planner)
    requires PlannerOk(meta, kept, p) && p.stack != [] && Visited(hs, meta, p).Some?
    ensures PlannerOk(meta, kept, Visited(hs, meta, p).value)
  {
    var q := Visited(hs, meta, p).value;
    assert forall c :: c in p.stack ==> c == p.stack[0] || c in p.stack[1..];
    if p.stack[0] !in p.marked {
      var n := meta.nodes[p.stack[0]];
      assert forall c :: c in p.stack[1..] || c in n.children ==> c in q.stack;
      assert forall h :: h in n.blobs ==> h in Members(n.blobs);
    }
  }

  lemma StartedIsOk(hs: Hasher, meta: Meta, kept: set<Bytes>, t: nat)
    requires Pins(hs) && StoreOk(hs, meta, kept)
    ensures PlannerOk(meta, kept, Planner(t, RootList(meta), {}, {}, None))
  {
    AscendingSorts(meta.refs.Keys);
    RootListHoldsRoots(meta, Ascending(meta.refs.Keys));
    forall name | name in meta.refs ensures meta.refs[name].nodeId in RootList(meta) {
      StoredIsHex(hs, meta, meta.refs[name].nodeId);
    }
  }

  lemma PlannerStepSessions(main: Bytes, s: Sys, p: nat, next: Planner)
    requires SessionsOk(main, s) && next.session in s.roles
    ensures SessionsOk(main, s.(planners := s.planners[p := next]))
    ensures SessionsOk(main, s.(planners := s.planners - {p}))
  {
  }

  lemma PlannerStepWalks(main: Bytes, s: Sys, p: nat, next: Planner, kept: set<Bytes>)
    requires WalksOk(main, s, kept)
    requires Collecting(main, s) && next.session == Token(s.meta, main) ==> PlannerOk(s.meta, kept, next)
    ensures WalksOk(main, s.(planners := s.planners[p := next]), kept)
    ensures WalksOk(main, s.(planners := s.planners - {p}), kept)
  {
  }

  lemma PlannerStepKeepsClosure(hs: Hasher, main: Bytes, s: Sys, p: nat, next: Planner, kept: set<Bytes>)
    requires ClosureSafe(hs, main, s, kept) && next.session in s.roles
    requires Collecting(main, s) && next.session == Token(s.meta, main) ==> PlannerOk(s.meta, kept, next)
    ensures ClosureSafe(hs, main, s.(planners := s.planners[p := next]), kept)
    ensures ClosureSafe(hs, main, s.(planners := s.planners - {p}), kept)
  {
    PlannerStepSessions(main, s, p, next);
    PlannerStepWalks(main, s, p, next, kept);
  }

  lemma DraftedIsOk(meta: Meta, kept: set<Bytes>, pl: Planner)
    requires PlannerOk(meta, kept, pl) && pl.listed.Some?
    ensures DraftOk(meta, kept, DraftOf(meta, pl))
  {
    AscendingSorts(meta.manifests.Keys - pl.live);
  }

  lemma DraftKeepsWalks(main: Bytes, s: Sys, p: nat, kept: set<Bytes>)
    requires WalksOk(main, s, kept) && PlanEnabled(s, ListManifests(p))
    ensures WalksOk(main, DoListManifests(s, p), kept)
  {
    if Collecting(main, s) && s.planners[p].session == Token(s.meta, main) {
      DraftedIsOk(s.meta, kept, s.planners[p]);
    }
  }

  lemma DraftKeepsSessions(main: Bytes, s: Sys, p: nat)
    requires SessionsOk(main, s) && SweepsFenced(main, s) && PlanEnabled(s, ListManifests(p))
    ensures SessionsOk(main, DoListManifests(s, p)) && SweepsFenced(main, DoListManifests(s, p))
  {
  }

  lemma DraftedStaysOk(hs: Hasher, main: Bytes, s: Sys, p: nat, kept: set<Bytes>)
    requires ClosureSafe(hs, main, s, kept) && PlanEnabled(s, ListManifests(p))
    ensures ClosureSafe(hs, main, DoListManifests(s, p), kept)
  {
    DraftKeepsWalks(main, s, p, kept);
    DraftKeepsSessions(main, s, p);
  }

  lemma StartPlanKeepsClosure(hs: Hasher, main: Bytes, s: Sys, p: nat, t: nat, kept: set<Bytes>)
    requires Pins(hs) && ClosureSafe(hs, main, s, kept) && t in s.roles
    requires PlanEnabled(s, StartPlan(p, t))
    ensures ClosureSafe(hs, main, ApplyPlan(hs, s, StartPlan(p, t)), kept)
  {
    StartedIsOk(hs, s.meta, kept, t);
    PlannerStepKeepsClosure(hs, main, s, p, Planner(t, RootList(s.meta), {}, {}, None), kept);
  }

  lemma VisitKeepsClosure(hs: Hasher, main: Bytes, s: Sys, p: nat, kept: set<Bytes>)
    requires ClosureSafe(hs, main, s, kept) && PlanEnabled(s, VisitNode(p))
    ensures ClosureSafe(hs, main, DoVisit(hs, s, p), kept)
  {
    var pl := s.planners[p];
    var next := Visited(hs, s.meta, pl);
    if next.Some? && Collecting(main, s) && pl.session == Token(s.meta, main) {
      VisitedStaysOk(hs, s.meta, kept, pl);
    }
    PlannerStepKeepsClosure(hs, main, s, p, if next.Some? then next.value else pl, kept);
  }

  lemma ListKeepsClosure(hs: Hasher, main: Bytes, s: Sys, p: nat, kept: set<Bytes>)
    requires ClosureSafe(hs, main, s, kept) && PlanEnabled(s, ListNodes(p))
    ensures ClosureSafe(hs, main, ApplyPlan(hs, s, ListNodes(p)), kept)
  {
    var listed := Ascending(s.meta.nodes.Keys - s.planners[p].marked);
    AscendingSorts(s.meta.nodes.Keys - s.planners[p].marked);
    PlannerStepKeepsClosure(hs, main, s, p, s.planners[p].(listed := Some(listed)), kept);
  }

  lemma PlanStepKeepsClosure(hs: Hasher, main: Bytes, s: Sys, a: PlanStep, kept: set<Bytes>)
    requires Pins(hs) && ClosureSafe(hs, main, s, kept) && PlanEnabled(s, a) && Disciplined(main, s, OfPlan(a))
    ensures ClosureSafe(hs, main, ApplyPlan(hs, s, a), kept)
  {
    match a {
      case StartPlan(p, t) => StartPlanKeepsClosure(hs, main, s, p, t, kept);
      case VisitNode(p) => VisitKeepsClosure(hs, main, s, p, kept);
      case ListNodes(p) => ListKeepsClosure(hs, main, s, p, kept);
      case ListManifests(p) => DraftedStaysOk(hs, main, s, p, kept);
    }
  }

  /** The heart of the matter: what a collector's own plan leaves of the kept set is complete and holds every ref. */
  lemma CommitKeepsStore(hs: Hasher, meta: Meta, kept: set<Bytes>, d: Draft)
    requires StoreOk(hs, meta, kept) && DraftOk(meta, kept, d)
    ensures StoreOk(hs, Without(meta, Members(d.plan.nodes), Members(d.plan.blobs)), kept * d.marked)
  {
  }

  lemma CoversAfterSweep(meta: Meta, nodes: set<Bytes>, blobs: set<Bytes>, kept: set<Bytes>, less: set<Bytes>,
                         marked: set<Bytes>, stack: seq<Bytes>, live: set<Bytes>)
    requires Covers(meta, kept, marked, stack, live) && less <= kept
    ensures Covers(Without(meta, nodes, blobs), less, marked, stack, live)
  {
  }

  lemma CommitKeepsWalks(main: Bytes, s: Sys, u: Sys, d: Draft, kept: set<Bytes>)
    requires WalksOk(main, s, kept) && u == s.(meta := u.meta, sweeps := u.sweeps)
    requires u.meta == Without(s.meta, Members(d.plan.nodes), Members(d.plan.blobs))
    ensures WalksOk(main, u, kept * d.marked)
  {
    var nodes, blobs, less := Members(d.plan.nodes), Members(d.plan.blobs), kept * d.marked;
    if Collecting(main, s) {
      forall p | p in s.planners && s.planners[p].session == Token(s.meta, main)
        ensures PlannerOk(u.meta, less, s.planners[p])
      {
        var pl := s.planners[p];
        CoversAfterSweep(s.meta, nodes, blobs, kept, less, pl.marked, pl.stack, pl.live);
      }
      forall e | e in s.plans && e.session == Token(s.meta, main) ensures DraftOk(u.meta, less, e) {
        CoversAfterSweep(s.meta, nodes, blobs, kept, less, e.marked, [], e.live);
      }
    }
  }

  /** No publisher relies on what a collector deletes. */
  lemma CommitKeepsSessions(main: Bytes, s: Sys, u: Sys, nodes: set<Bytes>, blobs: set<Bytes>,
                            kept: set<Bytes>, less: set<Bytes>)
    requires SessionsOk(main, s) && CertsOk(main, s, kept) && Collecting(main, s)
    requires u == s.(meta := Without(s.meta, nodes, blobs), sweeps := u.sweeps)
    ensures SessionsOk(main, u) && CertsOk(main, u, less)
  {
    assert Token(u.meta, main) !in u.certs;
  }

  lemma CommitMeta(main: Bytes, s: Sys, w: nat)
    requires SweepsFenced(main, s) && w in s.sweeps && s.sweeps[w].stage.Committing?
    ensures var d, u := s.sweeps[w].draft, DoAdvance(s, w);
            && d in s.plans && u == s.(meta := u.meta, sweeps := u.sweeps) && SweepsFenced(main, u)
            && u.meta == if LeaseHeld(s.meta, main, d.session)
                         then Without(s.meta, Members(d.plan.nodes), Members(d.plan.blobs)) else s.meta
  {
  }

  /** A collector that commits holds the lease in its own session, and goes by its own plan. */
  lemma CommitterHolds(main: Bytes, s: Sys, w: nat, kept: set<Bytes>)
    requires SessionsOk(main, s) && SweepsFenced(main, s) && WalksOk(main, s, kept)
    requires w in s.sweeps && LeaseHeld(s.meta, main, s.sweeps[w].draft.session)
    ensures s.sweeps[w].draft.session == Token(s.meta, main) && Collecting(main, s)
    ensures DraftOk(s.meta, kept, s.sweeps[w].draft)
  {
  }

  lemma CommitKeepsClosure(hs: Hasher, main: Bytes, s: Sys, w: nat, kept: set<Bytes>) returns (less: set<Bytes>)
    requires ClosureSafe(hs, main, s, kept) && w in s.sweeps && s.sweeps[w].stage.Committing?
    ensures ClosureSafe(hs, main, DoAdvance(s, w), less)
    ensures var d := s.sweeps[w].draft; less == if LeaseHeld(s.meta, main, d.session) then kept * d.marked else kept
  {
    var u, d := DoAdvance(s, w), s.sweeps[w].draft;
    CommitMeta(main, s, w);
    if LeaseHeld(s.meta, main, d.session) {
      less := kept * d.marked;
      CommitterHolds(main, s, w, kept);
      CommitKeepsStore(hs, s.meta, kept, d);
      CommitKeepsWalks(main, s, u, d, kept);
      CommitKeepsSessions(main, s, u, Members(d.plan.nodes), Members(d.plan.blobs), kept, less);
    } else {
      less := kept;
      SweepsKeepClosure(hs, main, s, u, kept);
    }
  }

  /** Only sweeps and bodies change. */
  lemma SweepsKeepClosure(hs: Hasher, main: Bytes, s: Sys, u: Sys, kept: set<Bytes>)
    requires ClosureSafe(hs, main, s, kept) && u == s.(sweeps := u.sweeps, bodies := u.bodies)
    requires SweepsFenced(main, u)
    ensures ClosureSafe(hs, main, u, kept)
  {
  }

  lemma StartedSweepFenced(main: Bytes, s: Sys, a: SweepStep)
    requires SweepsFenced(main, s) && SweepEnabled(s, a) && a.StartSweep? && Disciplined(main, s, OfSweep(a))
    ensures SweepsFenced(main, ApplySweep(s, a))
    ensures ApplySweep(s, a) == s.(sweeps := ApplySweep(s, a).sweeps)
  {
  }

  lemma AdvancedSweepFenced(main: Bytes, s: Sys, w: nat)
    requires SweepsFenced(main, s) && w in s.sweeps && !s.sweeps[w].stage.Committing?
    ensures SweepsFenced(main, DoAdvance(s, w))
    ensures DoAdvance(s, w) == s.(sweeps := DoAdvance(s, w).sweeps, bodies := DoAdvance(s, w).bodies)
  {
    assert MetaAfter(s, s.sweeps[w]) == s.meta;
  }

  /** Apart from its commit, a fenced sweep changes no metadata. */
  lemma OtherSweepKeepsClosure(hs: Hasher, main: Bytes, s: Sys, a: SweepStep, kept: set<Bytes>)
    requires ClosureSafe(hs, main, s, kept) && SweepEnabled(s, a) && Disciplined(main, s, OfSweep(a))
    requires a.AdvanceSweep? ==> !s.sweeps[a.sweeper].stage.Committing?
    ensures ClosureSafe(hs, main, ApplySweep(s, a), kept)
    ensures ApplySweep(s, a) == s.(sweeps := ApplySweep(s, a).sweeps, bodies := ApplySweep(s, a).bodies)
  {
    if a.StartSweep? {
      StartedSweepFenced(main, s, a);
    } else {
      AdvancedSweepFenced(main, s, a.sweeper);
    }
    SweepsKeepClosure(hs, main, s, ApplySweep(s, a), kept);
  }

  lemma SweepStepKeepsClosure(hs: Hasher, main: Bytes, s: Sys, a: SweepStep, kept: set<Bytes>)
    returns (less: set<Bytes>)
    requires ClosureSafe(hs, main, s, kept) && SweepEnabled(s, a) && Disciplined(main, s, OfSweep(a))
    ensures ClosureSafe(hs, main, ApplySweep(s, a), less)
  {
    less := kept;
    if a.AdvanceSweep? && s.sweeps[a.sweeper].stage.Committing? {
      less := CommitKeepsClosure(hs, main, s, a.sweeper, kept);
    } else {
      OtherSweepKeepsClosure(hs, main, s, a, kept);
    }
  }

  lemma StepKeepsClosure(hs: Hasher, main: Bytes, s: Sys, a: Step, u: Sys, kept: set<Bytes>) returns (next: set<Bytes>)
    requires Pins(hs) && BodiesSafe(hs, s) && ClosureSafe(hs, main, s, kept)
    requires Follows(hs, main, s, a, u) && Disciplined(main, s, a)
    ensures ClosureSafe(hs, main, u, next)
  {
    next := kept;
    match a {
      case OfBlob(b) => BlobStepKeepsClosure(hs, main, s, b, kept);
      case OfSession(t, b) => next := SessionStepKeepsClosure(hs, main, s, t, b, kept);
      case OfRef(b) => RefStepKeepsClosure(hs, main, s, b, kept);
      case OfLease(b) => LeaseStepKeepsClosure(hs, main, s, b, kept);
      case OfPlan(b) => PlanStepKeepsClosure(hs, main, s, b, kept);
      case OfSweep(b) => next := SweepStepKeepsClosure(hs, main, s, b, kept);
    }
  }

  // ---- Whole runs ----

  ghost predicate DisciplinedRun(hs: Hasher, main: Bytes, states: seq<Sys>, steps: seq<Step>) {
    IsRun(hs, main, states, steps) && forall i {:trigger steps[i]} :: 0 <= i < |steps| ==>
        Disciplined(main, states[i], steps[i])
  }

  /** A consistent store with nothing in flight: bodies match, nodes are sound, and the refs' closures are present. */
  ghost predicate ConsistentStart(hs: Hasher, s: Sys) {
    && CleanStart(hs, s) && NodesSound(hs, s.meta)
    && forall name :: name in s.meta.refs ==> ClosurePresent(s.meta, s.meta.refs[name].nodeId)
  }

  lemma StartIsSafe(hs: Hasher, main: Bytes, s: Sys) returns (kept: set<Bytes>)
    requires ConsistentStart(hs, s)
    ensures BodiesSafe(hs, s) && ClosureSafe(hs, main, s, kept)
  {
    kept := set x | x in s.meta.nodes && ClosurePresent(s.meta, x);
    forall x, c | x in kept && c in s.meta.nodes[x].children ensures c in kept {
      forall y | Reaches(s.meta.nodes, c, y) ensures Reaches(s.meta.nodes, x, y) {
        ReachesThroughChild(s.meta.nodes, x, c, y);
      }
      ReachesSelf(s.meta.nodes, c);
    }
    forall x | x in kept ensures Reaches(s.meta.nodes, x, x) {
      ReachesSelf(s.meta.nodes, x);
    }
    forall name | name in s.meta.refs ensures s.meta.refs[name].nodeId in kept {
      ReachesSelf(s.meta.nodes, s.meta.refs[name].nodeId);
    }
  }

  lemma NextIsSafe(hs: Hasher, main: Bytes, states: seq<Sys>, steps: seq<Step>, i: nat, kept: set<Bytes>)
    returns (next: set<Bytes>)
    requires Pins(hs) && DisciplinedRun(hs, main, states, steps) && i < |steps|
    requires BodiesSafe(hs, states[i]) && ClosureSafe(hs, main, states[i], kept)
    ensures BodiesSafe(hs, states[i + 1]) && ClosureSafe(hs, main, states[i + 1], next)
  {
    assert Follows(hs, main, states[i], steps[i], states[i + 1]) && Disciplined(main, states[i], steps[i]);
    StepKeepsBodies(hs, main, states[i], steps[i]);
    next := StepKeepsClosure(hs, main, states[i], steps[i], states[i + 1], kept);
  }

  lemma {:induction false} DisciplinedRunStaysSafe(
    hs: Hasher, main: Bytes, states: seq<Sys>, steps: seq<Step>, i: nat, first: set<Bytes>) returns (kept: set<Bytes>)
    requires Pins(hs) && DisciplinedRun(hs, main, states, steps) && i < |states|
    requires BodiesSafe(hs, states[0]) && ClosureSafe(hs, main, states[0], first)
    ensures BodiesSafe(hs, states[i]) && ClosureSafe(hs, main, states[i], kept)
  {
    kept := first;
    if i > 0 {
      kept := DisciplinedRunStaysSafe(hs, main, states, steps, i - 1, first);
      kept := NextIsSafe(hs, main, states, steps, i - 1, kept);
    }
  }

  /** All that a ref reaches is there: every node under its own address, and for each of its blobs a manifest whose
      body is stored, of the recorded size and with the blob's hash. */
  ghost predicate RefIntact(hs: Hasher, s: Sys, name: Bytes)
    requires name in s.meta.refs
  {
    forall x :: Reaches(s.meta.nodes, s.meta.refs[name].nodeId, x) ==>
      && GetNode(hs, s.meta, x).Ok?
      && forall h :: h in s.meta.nodes[x].blobs ==>
           && h in s.meta.manifests
           && var m := s.meta.manifests[h];
              m.hash == h && BodyKey(m) in s.bodies && hs.sum(s.bodies[BodyKey(m)]) == h
                  && |s.bodies[BodyKey(m)]| == m.size
  }

  /** In every interleaving of disciplined publishers and collectors, with stale holders and crashes, every ref stays
      intact. */
  lemma RefsStayIntact(hs: Hasher, main: Bytes, states: seq<Sys>, steps: seq<Step>, i: nat, name: Bytes)
    requires Pins(hs) && DisciplinedRun(hs, main, states, steps) && ConsistentStart(hs, states[0])
    requires i < |states| && name in states[i].meta.refs
    ensures RefIntact(hs, states[i], name)
  {
    var first := StartIsSafe(hs, main, states[0]);
    var kept := DisciplinedRunStaysSafe(hs, main, states, steps, i, first);
    ReachesInside(states[i].meta.nodes, kept, states[i].meta.refs[name].nodeId);
  }
}
