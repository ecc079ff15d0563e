/** Reads in flight: a reader that has taken a manifest finds the right body later on, or none. */
module TreeReads {
  import opened ByteStrings
  import opened Results
  import opened Nodes
  import opened TreeStore
  import opened TreeSystem
  import opened TreeBodies

  /** The key has been used, and if anything is stored under it, it is `body`. */
  ghost predicate Fixed(s: Sys, k: ObjectKey, body: Bytes) {
    (k.Staged? ==> k.serial in s.used) && (k in s.bodies ==> s.bodies[k] == body)
  }

  lemma BlobStepKeepsFixed(hs: Hasher, s: Sys, a: BlobStep, k: ObjectKey, body: Bytes)
    requires BlobEnabled(s, a) && Fixed(s, k, body)
    ensures Fixed(ApplyBlob(hs, s, a), k, body)
  {
    if a.PublishBlob? {
      assert DoPublish(s, a.serial).bodies == s.bodies && DoPublish(s, a.serial).used == s.used;
    }
  }

  lemma SweepStepKeepsFixed(s: Sys, a: SweepStep, k: ObjectKey, body: Bytes)
    requires SweepEnabled(s, a) && Fixed(s, k, body)
    ensures Fixed(ApplySweep(s, a), k, body)
  {
    if a.AdvanceSweep? {
      var after := BodiesAfter(s, s.sweeps[a.sweeper]);
      assert k in after ==> k in s.bodies && after[k] == s.bodies[k];
    }
  }

  lemma PlanStepKeepsFixed(hs: Hasher, s: Sys, a: PlanStep, k: ObjectKey, body: Bytes)
    requires PlanEnabled(s, a) && Fixed(s, k, body)
    ensures Fixed(ApplyPlan(hs, s, a), k, body)
  {
    if a.VisitNode? {
      VisitFrame(hs, s, a.planner);
    }
  }

  /** A stored body never changes, and a key once used is never written again. */
  lemma StepKeepsFixed(hs: Hasher, main: Bytes, s: Sys, a: Step, t: Sys, k: ObjectKey, body: Bytes)
    requires Follows(hs, main, s, a, t) && Fixed(s, k, body)
    ensures Fixed(t, k, body)
  {
    match a {
      case OfBlob(b) => BlobStepKeepsFixed(hs, s, b, k, body);
      case OfSession(n, b) => SessionStepFrame(hs, s, n, b);
      case OfLease(b) => LeaseStepFrame(s, main, b);
      case OfPlan(b) => PlanStepKeepsFixed(hs, s, b, k, body);
      case OfSweep(b) => SweepStepKeepsFixed(s, b, k, body);
      case OfRef(_) =>
    }
  }

  lemma NextStaysFixed(hs: Hasher, main: Bytes, states: seq<Sys>, steps: seq<Step>, i: nat, k: ObjectKey, body: Bytes)
    requires IsRun(hs, main, states, steps) && i < |steps| && Fixed(states[i], k, body)
    ensures Fixed(states[i + 1], k, body)
  {
    assert Follows(hs, main, states[i], steps[i], states[i + 1]);
    StepKeepsFixed(hs, main, states[i], steps[i], states[i + 1], k, body);
  }

  lemma {:induction false} StaysFixed(
    hs: Hasher, main: Bytes, states: seq<Sys>, steps: seq<Step>, i: nat, j: nat, k: ObjectKey, body: Bytes)
    requires IsRun(hs, main, states, steps) && i <= j < |states| && Fixed(states[i], k, body)
    ensures Fixed(states[j], k, body)
    decreases j
  {
    if i < j {
      StaysFixed(hs, main, states, steps, i, j - 1, k, body);
      NextStaysFixed(hs, main, states, steps, j - 1, k, body);
    }
  }

  lemma NamedIsFixed(hs: Hasher, s: Sys, h: Bytes)
    requires BodiesSafe(hs, s) && h in s.meta.manifests
    ensures var k := BodyKey(s.meta.manifests[h]); k in s.bodies && Fixed(s, k, s.bodies[k])
  {
    assert Owned(s, BodyKey(s.meta.manifests[h]), h);
  }

  /** In every run, with no lease discipline: whoever has read the manifest of `h` at some moment finds under its body
      key, at any later moment, either nothing or still the very body it named then, of its size and hashing to `h`. So
      a read of any range, opened however late, yields bytes of the right body or fails. */
  lemma ReadsStayTrue(hs: Hasher, main: Bytes, states: seq<Sys>, steps: seq<Step>, i: nat, j: nat, h: Bytes)
    requires IsRun(hs, main, states, steps) && CleanStart(hs, states[0]) && i <= j < |states|
    requires h in states[i].meta.manifests
    ensures var m := states[i].meta.manifests[h];
            var k := BodyKey(m);
            k in states[i].bodies && (k in states[j].bodies ==>
              && states[j].bodies[k] == states[i].bodies[k]
              && hs.sum(states[j].bodies[k]) == h && |states[j].bodies[k]| == m.size)
  {
    ManifestsAlwaysHaveBodies(hs, main, states, steps, i);
    NamedIsFixed(hs, states[i], h);
    var k := BodyKey(states[i].meta.manifests[h]);
    StaysFixed(hs, main, states, steps, i, j, k, states[i].bodies[k]);
  }
}
