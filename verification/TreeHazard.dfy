/** Why the guard on putting nodes matters: one node put by a session that has lost the lease, and a ref breaks. */
module TreeHazard {
  import opened ByteStrings
  import opened Results
  import opened Sorting
  import opened Nodes
  import opened TreeStore
  import opened Graphs
  import opened TreeSystem
  import opened TreeBodies
  import opened TreeClosure
  import opened TreePresence

  // ---- A run that goes by presence and breaks ----

  datatype History = History(states: seq<Sys>, steps: seq<Step>)

  ghost function Now(h: History): Sys
    requires h.states != []
  {
    h.states[|h.states| - 1]
  }

  /** The step of the run that is not guarded. */
  const PUT := 7

  ghost predicate GuardedButPut(main: Bytes, states: seq<Sys>, steps: seq<Step>) {
    && |states| > |steps|
    && forall i {:trigger steps[i]} :: 0 <= i < |steps| && i != PUT ==> Guarded(main, states[i], steps[i])
  }

  ghost predicate Proper(hs: Hasher, main: Bytes, h: History) {
    PresentRun(hs, main, h.states, h.steps) && GuardedButPut(main, h.states, h.steps) && h.states[0] == EMPTY
  }

  ghost function Then(hs: Hasher, main: Bytes, h: History, a: Step): History
    requires h.states != [] && Enabled(Now(h), a)
  {
    History(h.states + [Apply(hs, main, Now(h), a)], h.steps + [a])
  }

  lemma ThenRuns(hs: Hasher, main: Bytes, h: History, a: Step)
    requires IsRun(hs, main, h.states, h.steps) && Enabled(Now(h), a)
    ensures var g := Then(hs, main, h, a); IsRun(hs, main, g.states, g.steps)
  {
    var g := Then(hs, main, h, a);
    forall i {:trigger g.steps[i]} | 0 <= i < |g.steps|
      ensures Follows(hs, main, g.states[i], g.steps[i], g.states[i + 1])
    {
      if i < |h.steps| {
        assert h.steps[i] == g.steps[i] && Follows(hs, main, h.states[i], h.steps[i], h.states[i + 1]);
      }
    }
  }

  lemma ThenKeeps(hs: Hasher, main: Bytes, h: History, a: Step)
    requires Proper(hs, main, h) && Enabled(Now(h), a) && Present(main, Now(h), a)
    requires |h.steps| == PUT || Guarded(main, Now(h), a)
    ensures Proper(hs, main, Then(hs, main, h, a))
  {
    ThenRuns(hs, main, h, a);
    var g := Then(hs, main, h, a);
    forall i {:trigger g.steps[i]} | 0 <= i < |g.steps|
      ensures Present(main, g.states[i], g.steps[i]) && (i != PUT ==> Guarded(main, g.states[i], g.steps[i]))
    {
      if i < |h.steps| {
        assert h.steps[i] == g.steps[i];
      }
    }
  }

  const EMPTY := Sys(Meta(map[], map[], map[], map[]), map[], map[], map[], {}, map[], map[], {}, map[], map[])

  /** A leaf over one blob. */
  function LeafOver(h: Bytes): Node {
    Node([], true, [h], [])
  }

  /** An inner node with one child. */
  function ParentOf(id: Bytes): Node {
    Node([], false, [], [id])
  }

  /** The first publisher uploads and publishes one empty blob. */
  lemma BlobPublished(hs: Hasher, main: Bytes) returns (h: History)
    requires Pins(hs)
    ensures Proper(hs, main, h) && |h.steps| == 3
    ensures var s, b := Now(h), hs.sum([]);
            && s.meta == Meta(map[], map[b := Manifest(b, b, 0, Some(Staged(0)))], map[], map[main := 1])
            && s.roles == map[1 := Publisher] && s.planners == map[] && s.plans == {} && s.sweeps == map[]
  {
    h := History([EMPTY], []);
    ThenKeeps(hs, main, h, OfLease(AcquireLease(main, Publisher)));
    h := Then(hs, main, h, OfLease(AcquireLease(main, Publisher)));
    var a := OfBlob(StageBody(0, [], [], [], 1));
    ThenKeeps(hs, main, h, a);
    h := Then(hs, main, h, a);
    ThenKeeps(hs, main, h, OfBlob(PublishBlob(0)));
    h := Then(hs, main, h, OfBlob(PublishBlob(0)));
  }

  lemma OnlyMember(x: Bytes)
    ensures Ascending({x}) == [x]
  {
    AscendingSorts({x});
    assert Ascending({x})[0] in Ascending({x});
  }

  lemma NoMember(s: set<Bytes>)
    requires s == {}
    ensures Ascending(s) == []
  {
  }

  function BlobDraft(b: Bytes): Draft {
    Draft(2, Plan([], [b], map[b := Staged(0)]), {}, {})
  }

  lemma CollectorStarted(hs: Hasher, main: Bytes) returns (h: History)
    requires Pins(hs)
    ensures Proper(hs, main, h) && |h.steps| == 5
    ensures var s, b := Now(h), hs.sum([]);
            && s.meta == Meta(map[], map[b := Manifest(b, b, 0, Some(Staged(0)))], map[], map[main := 2])
            && s.roles == map[1 := Publisher, 2 := Collector] && s.plans == {} && s.sweeps == map[]
            && s.planners == map[0 := Planner(2, [], {}, {}, None)]
  {
    h := BlobPublished(hs, main);
    ThenKeeps(hs, main, h, OfLease(AcquireLease(main, Collector)));
    h := Then(hs, main, h, OfLease(AcquireLease(main, Collector)));
    NoMember(Now(h).meta.refs.Keys);
    ThenKeeps(hs, main, h, OfPlan(StartPlan(0, 2)));
    h := Then(hs, main, h, OfPlan(StartPlan(0, 2)));
  }

  /** A collector takes the lease and walks: there are no refs and no nodes. */
  lemma NothingMarked(hs: Hasher, main: Bytes) returns (h: History)
    requires Pins(hs)
    ensures Proper(hs, main, h) && |h.steps| == 6
    ensures var s, b := Now(h), hs.sum([]);
            && s.meta == Meta(map[], map[b := Manifest(b, b, 0, Some(Staged(0)))], map[], map[main := 2])
            && s.roles == map[1 := Publisher, 2 := Collector] && s.plans == {} && s.sweeps == map[]
            && s.planners == map[0 := Planner(2, [], {}, {}, Some([]))]
  {
    h := CollectorStarted(hs, main);
    NoMember(Now(h).meta.nodes.Keys - {});
    ThenKeeps(hs, main, h, OfPlan(ListNodes(0)));
    h := Then(hs, main, h, OfPlan(ListNodes(0)));
  }

  /** It plans: the blob is garbage. */
  lemma BlobPlanned(hs: Hasher, main: Bytes) returns (h: History)
    requires Pins(hs)
    ensures Proper(hs, main, h) && |h.steps| == 7
    ensures var s, b := Now(h), hs.sum([]);
            && s.meta == Meta(map[], map[b := Manifest(b, b, 0, Some(Staged(0)))], map[], map[main := 2])
            && s.roles == map[1 := Publisher, 2 := Collector] && s.plans == {BlobDraft(b)} && s.sweeps == map[]
  {
    h := NothingMarked(hs, main);
    var b := hs.sum([]);
    assert Now(h).meta.manifests.Keys - {} == {b};
    OnlyMember(b);
    assert ObjectKeys(Now(h).meta, {}) == map[b := Staged(0)];
    ThenKeeps(hs, main, h, OfPlan(ListManifests(0)));
    h := Then(hs, main, h, OfPlan(ListManifests(0)));
    assert Now(h).plans == {BlobDraft(b)};
  }

  /** The first publisher, unaware that it lost the lease, puts a node over its blob, which is still there. */
  lemma LatePut(hs: Hasher, main: Bytes) returns (h: History)
    requires Pins(hs)
    ensures Proper(hs, main, h) && |h.steps| == 8
    ensures !Guarded(main, h.states[PUT], h.steps[PUT])
    ensures var s, b := Now(h), hs.sum([]);
            && s.meta == Meta(map[hs.id(LeafOver(b)) := Normal(LeafOver(b))],
                              map[b := Manifest(b, b, 0, Some(Staged(0)))], map[], map[main := 2])
            && s.roles == map[1 := Publisher, 2 := Collector] && s.plans == {BlobDraft(b)} && s.sweeps == map[]
  {
    h := BlobPlanned(hs, main);
    var b := hs.sum([]);
    var put := OfSession(1, PutNode(LeafOver(b)));
    assert Members(LeafOver(b).blobs) == {b} && Members(LeafOver(b).children) == {};
    ThenKeeps(hs, main, h, put);
    h := Then(hs, main, h, put);
  }

  /** The state while the collector's fenced sweep is under way. */
  ghost predicate Sweeping(hs: Hasher, main: Bytes, s: Sys, stage: Stage) {
    var b := hs.sum([]);
    && s.meta == Meta(map[hs.id(LeafOver(b)) := Normal(LeafOver(b))],
                      map[b := Manifest(b, b, 0, Some(Staged(0)))], map[], map[main := 2])
    && s.roles == map[1 := Publisher, 2 := Collector]
    && s.sweeps == map[0 := Sweep(BlobDraft(b), FencedBy(main, 2), stage)]
  }

  lemma SweepStarted(hs: Hasher, main: Bytes) returns (h: History)
    requires Pins(hs)
    ensures Proper(hs, main, h) && |h.steps| == 9 && !Guarded(main, h.states[PUT], h.steps[PUT])
    ensures Sweeping(hs, main, Now(h), CollectingKeys(0, map[]))
  {
    h := LatePut(hs, main);
    var start := OfSweep(StartSweep(0, BlobDraft(hs.sum([])), FencedBy(main, 2)));
    ThenKeeps(hs, main, h, start);
    h := Then(hs, main, h, start);
  }

  lemma SweepAdvances(hs: Hasher, main: Bytes, s: Sys, stage: Stage)
    requires Sweeping(hs, main, s, stage)
    ensures var b, t := hs.sum([]), DoAdvance(s, 0);
            && (stage == CollectingKeys(0, map[]) ==> Sweeping(hs, main, t, CollectingKeys(1, map[b := Staged(0)])))
            && (stage == CollectingKeys(1, map[b := Staged(0)]) ==>
                  Sweeping(hs, main, t, Committing(map[b := Staged(0)])))
  {
  }

  lemma KeyLookedUp(hs: Hasher, main: Bytes) returns (h: History)
    requires Pins(hs)
    ensures Proper(hs, main, h) && |h.steps| == 10 && !Guarded(main, h.states[PUT], h.steps[PUT])
    ensures Sweeping(hs, main, Now(h), CollectingKeys(1, map[hs.sum([]) := Staged(0)]))
  {
    h := SweepStarted(hs, main);
    SweepAdvances(hs, main, Now(h), CollectingKeys(0, map[]));
    ThenKeeps(hs, main, h, OfSweep(AdvanceSweep(0)));
    h := Then(hs, main, h, OfSweep(AdvanceSweep(0)));
  }

  /** It has looked up the blob's key, and is ready to commit. */
  lemma SweepBegun(hs: Hasher, main: Bytes) returns (h: History)
    requires Pins(hs)
    ensures Proper(hs, main, h) && |h.steps| == 11 && !Guarded(main, h.states[PUT], h.steps[PUT])
    ensures Sweeping(hs, main, Now(h), Committing(map[hs.sum([]) := Staged(0)]))
  {
    h := KeyLookedUp(hs, main);
    SweepAdvances(hs, main, Now(h), CollectingKeys(1, map[hs.sum([]) := Staged(0)]));
    ThenKeeps(hs, main, h, OfSweep(AdvanceSweep(0)));
    h := Then(hs, main, h, OfSweep(AdvanceSweep(0)));
  }

  lemma CommitDeletes(hs: Hasher, main: Bytes, s: Sys)
    requires Sweeping(hs, main, s, Committing(map[hs.sum([]) := Staged(0)]))
    ensures var n, t := LeafOver(hs.sum([])), DoAdvance(s, 0);
            t.meta == Meta(map[hs.id(n) := Normal(n)], map[], map[], map[main := 2]) && t.roles == s.roles
  {
    var b := hs.sum([]);
    assert Members([b]) == {b} && Members([]) == {};
    assert s.meta.manifests - {b} == map[] && s.meta.nodes - {} == s.meta.nodes;
  }

  /** It commits: the manifest is gone, the node, which no plan lists, is not. */
  lemma BlobGone(hs: Hasher, main: Bytes) returns (h: History)
    requires Pins(hs)
    ensures Proper(hs, main, h) && |h.steps| == 12 && !Guarded(main, h.states[PUT], h.steps[PUT])
    ensures var s, n := Now(h), LeafOver(hs.sum([]));
            && s.meta == Meta(map[hs.id(n) := Normal(n)], map[], map[], map[main := 2])
            && s.roles == map[1 := Publisher, 2 := Collector]
  {
    h := SweepBegun(hs, main);
    CommitDeletes(hs, main, Now(h));
    ThenKeeps(hs, main, h, OfSweep(AdvanceSweep(0)));
    h := Then(hs, main, h, OfSweep(AdvanceSweep(0)));
  }

  /** Then a third session begins. */
  lemma BlobSwept(hs: Hasher, main: Bytes) returns (h: History)
    requires Pins(hs)
    ensures Proper(hs, main, h) && |h.steps| == 13 && !Guarded(main, h.states[PUT], h.steps[PUT])
    ensures h.steps[12] == OfLease(AcquireLease(main, Publisher))
    ensures hs.id(LeafOver(hs.sum([]))) in h.states[12].meta.nodes
    ensures var s, n := Now(h), LeafOver(hs.sum([]));
            && s.meta == Meta(map[hs.id(n) := Normal(n)], map[], map[], map[main := 3])
            && s.roles == map[1 := Publisher, 2 := Collector, 3 := Publisher]
  {
    h := BlobGone(hs, main);
    ThenKeeps(hs, main, h, OfLease(AcquireLease(main, Publisher)));
    h := Then(hs, main, h, OfLease(AcquireLease(main, Publisher)));
  }

  lemma ParentIsAnother(hs: Hasher)
    requires Pins(hs)
    ensures var leaf := LeafOver(hs.sum([])); hs.id(ParentOf(hs.id(leaf))) != hs.id(leaf)
  {
    var leaf := LeafOver(hs.sum([]));
    var parent := ParentOf(hs.id(leaf));
    assert HexNode(leaf) && HexNode(parent);
    HexIsPlain(leaf);
    HexIsPlain(parent);
    assert Normal(leaf).leaf && !Normal(parent).leaf;
  }

  lemma PutsParent(hs: Hasher, main: Bytes, s: Sys)
    requires Pins(hs) && 3 in s.roles && s.roles[3] == Publisher
    requires var leaf := LeafOver(hs.sum([]));
             s.meta == Meta(map[hs.id(leaf) := Normal(leaf)], map[], map[], map[main := 3])
    ensures var leaf := LeafOver(hs.sum([]));
            var parent := ParentOf(hs.id(leaf));
            var put := OfSession(3, PutNode(parent));
            && Enabled(s, put) && Present(main, s, put) && Guarded(main, s, put)
            && Apply(hs, main, s, put).roles == s.roles
            && Apply(hs, main, s, put).meta
               == Meta(map[hs.id(leaf) := Normal(leaf), hs.id(parent) := Normal(parent)], map[], map[], map[main := 3])
  {
    var parent := ParentOf(hs.id(LeafOver(hs.sum([]))));
    ParentIsAnother(hs);
    assert Members(parent.blobs) == {} && Members(parent.children) == {hs.id(LeafOver(hs.sum([])))};
  }

  /** The third session puts a parent over the node it has found. */
  lemma ParentPut(hs: Hasher, main: Bytes) returns (h: History)
    requires Pins(hs)
    ensures Proper(hs, main, h) && |h.steps| == 14 && !Guarded(main, h.states[PUT], h.steps[PUT])
    ensures h.steps[12] == OfLease(AcquireLease(main, Publisher))
    ensures hs.id(LeafOver(hs.sum([]))) in h.states[12].meta.nodes
    ensures var s, leaf := Now(h), LeafOver(hs.sum([]));
            var parent := ParentOf(hs.id(leaf));
            && s.meta == Meta(map[hs.id(leaf) := Normal(leaf), hs.id(parent) := Normal(parent)],
                              map[], map[], map[main := 3])
            && s.roles == map[1 := Publisher, 2 := Collector, 3 := Publisher]
  {
    h := BlobSwept(hs, main);
    PutsParent(hs, main, Now(h));
    var put := OfSession(3, PutNode(ParentOf(hs.id(LeafOver(hs.sum([]))))));
    ThenKeeps(hs, main, h, put);
    h := Then(hs, main, h, put);
  }

  lemma SwapBreaks(hs: Hasher, main: Bytes, s: Sys, name: Bytes)
    requires Pins(hs) && 3 in s.roles && s.roles[3] == Publisher
    requires var leaf := LeafOver(hs.sum([]));
             var parent := ParentOf(hs.id(leaf));
             s.meta == Meta(map[hs.id(leaf) := Normal(leaf), hs.id(parent) := Normal(parent)],
                            map[], map[], map[main := 3])
    ensures var id := hs.id(ParentOf(hs.id(LeafOver(hs.sum([])))));
            var swap := OfRef(SwapFenced(main, 3, name, id, 0));
            && Enabled(s, swap) && Present(main, s, swap) && Guarded(main, s, swap)
            && var t := Apply(hs, main, s, swap); name in t.meta.refs && !RefIntact(hs, t, name)
  {
    var b := hs.sum([]);
    var leaf := LeafOver(b);
    var parent := ParentOf(hs.id(leaf));
    var t := Apply(hs, main, s, OfRef(SwapFenced(main, 3, name, hs.id(parent), 0)));
    ParentIsAnother(hs);
    NormalMembers(leaf);
    NormalMembers(parent);
    assert hs.id(leaf) in parent.children && t.meta.nodes[hs.id(parent)] == Normal(parent);
    ReachesSelf(t.meta.nodes, hs.id(parent));
    ReachesChild(t.meta.nodes, hs.id(parent), hs.id(parent), hs.id(leaf));
    assert b in t.meta.nodes[hs.id(leaf)].blobs && b !in t.meta.manifests;
  }

  lemma EmptyIsWhole(hs: Hasher)
    ensures WholeStart(hs, EMPTY)
  {
  }

  /** Every step of this run goes by presence, and every step but one is guarded. A session that has lost the lease puts
      a node over a blob that it has published itself and that is still there; but the collector's plan, already made,
      holds the blob. A later session finds that node present since before its acquire, puts a parent over it and points
      a ref at the parent, all under the lease: the ref has lost a blob. */
  lemma PresenceIsNotEnough(hs: Hasher, main: Bytes, name: Bytes) returns (h: History)
    requires Pins(hs)
    ensures PresentRun(hs, main, h.states, h.steps) && WholeStart(hs, h.states[0])
    ensures GuardedButPut(main, h.states, h.steps) && |h.steps| > 12 && !Guarded(main, h.states[PUT], h.steps[PUT])
    ensures h.steps[12] == OfLease(AcquireLease(main, Publisher))
    ensures hs.id(LeafOver(hs.sum([]))) in h.states[12].meta.nodes
    ensures name in Now(h).meta.refs && !RefIntact(hs, Now(h), name)
  {
    h := ParentPut(hs, main);
    EmptyIsWhole(hs);
    SwapBreaks(hs, main, Now(h), name);
    var swap := OfRef(SwapFenced(main, 3, name, hs.id(ParentOf(hs.id(LeafOver(hs.sum([]))))), 0));
    ThenKeeps(hs, main, h, swap);
    h := Then(hs, main, h, swap);
  }
}
