/** The system's planner, step by step, on metadata that stands still: it plans exactly the garbage. */
module TreePlanning {
  import opened ByteStrings
  import opened Results
  import opened Sorting
  import opened Nodes
  import opened TreeStore
  import opened Graphs
  import opened TreeGarbage
  import opened TreeSystem

  /** The IDs still to visit are reachable. */
  ghost predicate StackOk(meta: Meta, pl: Planner) {
    forall x :: x in pl.stack ==> Reachable(meta, x)
  }

  ghost predicate MarkedOk(hs: Hasher, meta: Meta, pl: Planner, x: Bytes) {
    && Reachable(meta, x) && GetNode(hs, meta, x).Ok?
    && (forall c :: c in meta.nodes[x].children ==> c in pl.marked || c in pl.stack)
    && (forall h :: h in meta.nodes[x].blobs ==> h in pl.live)
  }

  /** Marked nodes are reachable, load, and have their successors marked or pending. */
  ghost predicate MarksOk(hs: Hasher, meta: Meta, pl: Planner) {
    && (forall x :: x in pl.marked ==> MarkedOk(hs, meta, pl, x))
    && (forall h :: h in pl.live ==> BlobOf(meta, pl.marked, h))
  }

  ghost predicate RootsOk(meta: Meta, pl: Planner) {
    forall r :: r in Roots(meta) ==> r in pl.marked || r in pl.stack
  }

  ghost predicate ListingOk(meta: Meta, pl: Planner) {
    pl.listed.Some? ==> pl.stack == [] && pl.listed.value == Ascending(meta.nodes.Keys - pl.marked)
  }

  /** How far a planner has come on metadata `meta`. */
  ghost predicate StillOk(hs: Hasher, meta: Meta, pl: Planner) {
    StackOk(meta, pl) && MarksOk(hs, meta, pl) && RootsOk(meta, pl) && ListingOk(meta, pl)
  }

  lemma {:induction false} RootsOfMembers(meta: Meta, names: seq<Bytes>, r: Bytes)
    ensures r in RootsOf(meta, names) <==>
            exists name :: name in names && name in meta.refs && meta.refs[name].nodeId == r && r != []
  {
    if names != [] {
      RootsOfMembers(meta, names[1..], r);
      assert names == [names[0]] + names[1..];
    }
  }

  lemma RootListIsRoots(meta: Meta)
    ensures forall r :: r in RootList(meta) <==> r in Roots(meta)
  {
    AscendingSorts(meta.refs.Keys);
    forall r ensures r in RootList(meta) <==> r in Roots(meta) {
      RootsOfMembers(meta, Ascending(meta.refs.Keys), r);
    }
  }

  lemma StartedStill(hs: Hasher, meta: Meta, t: nat)
    ensures StillOk(hs, meta, Planner(t, RootList(meta), {}, {}, None))
  {
    RootListIsRoots(meta);
    forall x | x in RootList(meta) ensures Reachable(meta, x) {
      ReachesSelf(meta.nodes, x);
    }
  }

  lemma PushedStack(meta: Meta, pl: Planner, id: Bytes, children: seq<Bytes>)
    requires StackOk(meta, pl) && pl.stack != [] && id == pl.stack[0]
    requires id in meta.nodes && children == meta.nodes[id].children
    ensures StackOk(meta, pl.(stack := children + pl.stack[1..]))
  {
    assert Reachable(meta, id);
    var r :| r in Roots(meta) && Reaches(meta.nodes, r, id);
    forall c | c in children ensures Reachable(meta, c) {
      ReachesChild(meta.nodes, r, id, c);
    }
  }

  /** Visiting one ID moves it from the stack to the marks. */
  lemma VisitMarks(hs: Hasher, meta: Meta, pl: Planner, id: Bytes, n: Node, next: Planner)
    requires StackOk(meta, pl) && MarksOk(hs, meta, pl) && pl.stack != [] && id == pl.stack[0]
    requires GetNode(hs, meta, id) == Ok(n)
    requires next == pl.(marked := pl.marked + {id},
                         live := pl.live + Members(n.blobs),
                         stack := n.children + pl.stack[1..])
    ensures MarksOk(hs, meta, next)
  {
    forall x | x in next.marked ensures MarkedOk(hs, meta, next, x) {
      if x != id {
        assert MarkedOk(hs, meta, pl, x);
      }
    }
    forall h | h in next.live ensures BlobOf(meta, next.marked, h) {
      if h in pl.live {
        var x :| x in pl.marked && x in meta.nodes && h in meta.nodes[x].blobs;
        assert x in next.marked;
      } else {
        assert id in next.marked && h in meta.nodes[id].blobs;
      }
    }
  }

  lemma SkipMarks(hs: Hasher, meta: Meta, pl: Planner)
    requires MarksOk(hs, meta, pl) && pl.stack != [] && pl.stack[0] in pl.marked
    ensures MarksOk(hs, meta, pl.(stack := pl.stack[1..]))
  {
    var next := pl.(stack := pl.stack[1..]);
    forall x | x in next.marked ensures MarkedOk(hs, meta, next, x) {
      assert MarkedOk(hs, meta, pl, x);
    }
  }

  lemma VisitedStill(hs: Hasher, meta: Meta, pl: Planner)
    requires StillOk(hs, meta, pl) && pl.stack != [] && Visited(hs, meta, pl).Some?
    ensures StillOk(hs, meta, Visited(hs, meta, pl).value)
  {
    var id := pl.stack[0];
    assert forall x :: x in pl.stack <==> x == id || x in pl.stack[1..];
    if id in pl.marked {
      SkipMarks(hs, meta, pl);
    } else {
      var n := GetNode(hs, meta, id).value;
      PushedStack(meta, pl, id, n.children);
      VisitMarks(hs, meta, pl, id, n, Visited(hs, meta, pl).value);
    }
  }

  /** A planner gives up only when some reachable node cannot be loaded. */
  lemma GivesUpOnlyUnwalkable(hs: Hasher, meta: Meta, pl: Planner)
    requires StillOk(hs, meta, pl) && pl.stack != [] && Visited(hs, meta, pl).None?
    ensures !Walkable(hs, meta)
  {
    assert Reachable(meta, pl.stack[0]);
  }

  /** A planner that has listed the nodes makes the exact plan. */
  lemma DraftIsGarbage(hs: Hasher, meta: Meta, pl: Planner)
    requires StillOk(hs, meta, pl) && pl.listed.Some?
    ensures DraftOf(meta, pl).plan == Garbage(meta) && Walkable(hs, meta)
  {
    forall x | x in pl.marked
      ensures Reachable(meta, x) && GetNode(hs, meta, x).Ok? && Accounted(meta, x, pl.marked, pl.live)
    {
      assert MarkedOk(hs, meta, pl, x);
    }
    AllMarkedIsGarbage(hs, meta, pl.marked, pl.live);
  }

  lemma PlanStepStill(hs: Hasher, s: Sys, a: PlanStep, p: nat)
    requires PlanEnabled(s, a) && (p in s.planners ==> StillOk(hs, s.meta, s.planners[p]))
    ensures p in ApplyPlan(hs, s, a).planners ==> StillOk(hs, s.meta, ApplyPlan(hs, s, a).planners[p])
  {
    match a {
      case StartPlan(q, t) => StartedStill(hs, s.meta, t);
      case VisitNode(q) =>
        if q == p && Visited(hs, s.meta, s.planners[p]).Some? {
          VisitedStill(hs, s.meta, s.planners[p]);
        }
        assert ApplyPlan(hs, s, a) == DoVisit(hs, s, q);
      case _ =>
    }
  }

  lemma OtherStepPlanners(hs: Hasher, main: Bytes, s: Sys, a: Step, t: Sys)
    requires Follows(hs, main, s, a, t) && !a.OfPlan?
    ensures t.planners == s.planners
  {
    match a {
      case OfBlob(b) => BlobStepFrame(hs, s, b);
      case OfSession(n, b) => SessionStepLeaves(hs, s, n, b);
      case OfLease(b) => LeaseStepLeaves(s, main, b);
      case OfSweep(b) => SweepStepLeaves(s, b);
      case OfRef(_) =>
    }
  }

  lemma StepStill(hs: Hasher, main: Bytes, s: Sys, a: Step, t: Sys, p: nat)
    requires Follows(hs, main, s, a, t) && (p in s.planners ==> StillOk(hs, s.meta, s.planners[p]))
    ensures p in t.planners ==> StillOk(hs, s.meta, t.planners[p])
  {
    if a.OfPlan? {
      PlanStepStill(hs, s, a.plan, p);
    } else {
      OtherStepPlanners(hs, main, s, a, t);
    }
  }

  /** The metadata is `meta` in all states from `i` up to but not including `j`. */
  ghost predicate StandsStill(states: seq<Sys>, i: nat, j: nat, meta: Meta) {
    j < |states| && forall n :: i <= n < j ==> states[n].meta == meta
  }

  lemma {:induction false} PlannerStaysStill(
    hs: Hasher, main: Bytes, states: seq<Sys>, steps: seq<Step>, i: nat, j: nat, p: nat, meta: Meta)
    requires IsRun(hs, main, states, steps) && i <= j && StandsStill(states, i, j, meta) && p !in states[i].planners
    ensures p in states[j].planners ==> StillOk(hs, meta, states[j].planners[p])
    decreases j
  {
    if i < j {
      PlannerStaysStill(hs, main, states, steps, i, j - 1, p, meta);
      assert Follows(hs, main, states[j - 1], steps[j - 1], states[j]);
      StepStill(hs, main, states[j - 1], steps[j - 1], states[j], p);
    }
  }

  /** In every run, a `PlanGC` call that starts and ends while the metadata stands still, whatever else goes on, makes
      exactly the plan of the garbage; and there is one only if every reachable node loads. */
  lemma PlannerFindsTheGarbage(
    hs: Hasher, main: Bytes, states: seq<Sys>, steps: seq<Step>, i: nat, j: nat, p: nat, meta: Meta)
    requires IsRun(hs, main, states, steps) && i <= j < |steps| && StandsStill(states, i, j + 1, meta)
    requires p !in states[i].planners && steps[j] == OfPlan(ListManifests(p))
    ensures Walkable(hs, meta)
    ensures exists d: Draft :: d.plan == Garbage(meta) && states[j + 1].plans == states[j].plans + {d}
  {
    PlannerStaysStill(hs, main, states, steps, i, j, p, meta);
    assert Follows(hs, main, states[j], steps[j], states[j + 1]);
    DraftIsGarbage(hs, meta, states[j].planners[p]);
    var d := DraftOf(meta, states[j].planners[p]);
    assert states[j + 1] == DoListManifests(states[j], p);
    assert d.plan == Garbage(meta) && states[j + 1].plans == states[j].plans + {d};
  }

  /** And one that ends without a plan has found a reachable node that does not load. */
  lemma PlannerFailsOnlyUnwalkable(
    hs: Hasher, main: Bytes, states: seq<Sys>, steps: seq<Step>, i: nat, j: nat, p: nat, meta: Meta)
    requires IsRun(hs, main, states, steps) && i <= j < |steps| && StandsStill(states, i, j + 1, meta)
    requires p !in states[i].planners && steps[j] == OfPlan(VisitNode(p)) && p !in states[j + 1].planners
    ensures !Walkable(hs, meta)
  {
    PlannerStaysStill(hs, main, states, steps, i, j, p, meta);
    assert Follows(hs, main, states[j], steps[j], states[j + 1]);
    assert states[j + 1] == DoVisit(hs, states[j], p);
    GivesUpOnlyUnwalkable(hs, meta, states[j].planners[p]);
  }
}
