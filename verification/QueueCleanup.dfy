/** What a finished cleanup leaves of its job, in every run: nothing. */
module QueueCleanup {
  import opened ByteStrings
  import opened Results
  import opened Jobs
  import opened QueueSystem
  import opened QueuePayloads

  /** The incarnation with payload key `k` is over: it has neither record nor payload. */
  ghost predicate Vanished(s: Sys, k: PayloadKey) {
    BodyGone(s, k) && forall id :: id in s.jobs ==> s.jobs[id].payload != k
  }

  /** Nothing is stored under the published payload key `k`. */
  ghost predicate BodyGone(s: Sys, k: PayloadKey) {
    k in s.tallies && k !in s.payloads && k.serial in s.used
  }

  lemma EnqueueKeepsGone(sha: Digest, s: Sys, a: EnqueueStep, k: PayloadKey)
    requires EnqueueEnabled(s, a) && BodyGone(s, k)
    ensures BodyGone(ApplyEnqueue(sha, s, a), k)
  {
  }

  lemma ClaimKeepsGone(s: Sys, id: Bytes, now: int, lease: int, token: nat, k: PayloadKey)
    requires id in s.jobs && BodyGone(s, k)
    ensures BodyGone(DoClaim(s, id, now, lease, token), k)
  {
  }

  lemma UpkeepKeepsGone(s: Sys, a: UpkeepStep, k: PayloadKey)
    requires UpkeepEnabled(s, a) && BodyGone(s, k)
    ensures BodyGone(ApplyUpkeep(s, a), k)
  {
  }

  /** A payload key that was used is never written again. */
  lemma StepKeepsGone(sha: Digest, s: Sys, a: Step, t: Sys, k: PayloadKey)
    requires Follows(sha, s, a, t) && BodyGone(s, k)
    ensures BodyGone(t, k)
  {
    match a {
      case OfEnqueue(b) => EnqueueKeepsGone(sha, s, b, k);
      case OfClaim(id, now, lease, token) => ClaimKeepsGone(s, id, now, lease, token, k);
      case OfHolder(h, b, now) => HolderRecords(s, h, b, now);
      case OfUpkeep(b) => UpkeepKeepsGone(s, b, k);
    }
  }

  lemma StepKeepsVanished(sha: Digest, s: Sys, a: Step, t: Sys, k: PayloadKey)
    requires Safe(sha, s) && Follows(sha, s, a, t) && Vanished(s, k)
    ensures Vanished(t, k)
  {
    StepKeepsGone(sha, s, a, t, k);
    StepKeepsSafe(sha, s, a, t);
    forall id | id in t.jobs ensures t.jobs[id].payload != k {
      assert RecordAges(s, t, id);
    }
  }

  /** The removing step takes the record, if it is still there. */
  lemma RemovalVanishes(sha: Digest, s: Sys, c: nat)
    requires Safe(sha, s) && UpkeepEnabled(s, RemoveRecord(c))
    ensures Vanished(DoRemove(s, c), s.cleanups[c].job.payload)
  {
    var j, t := s.cleanups[c].job, DoRemove(s, c);
    assert CleanupOk(s, s.cleanups[c]);
    forall id | id in t.jobs ensures t.jobs[id].payload != j.payload {
      assert RecordOk(sha, s, id, s.jobs[id]);
    }
  }

  lemma NextIsVanished(sha: Digest, states: seq<Sys>, steps: seq<Step>, i: nat, k: PayloadKey)
    requires IsRun(sha, states, steps) && states[0] == EmptyQueue(states[0].clock) && i < |steps|
    requires Vanished(states[i], k)
    ensures Vanished(states[i + 1], k)
  {
    RunStaysSafe(sha, states, steps, i);
    assert Follows(sha, states[i], steps[i], states[i + 1]);
    StepKeepsVanished(sha, states[i], steps[i], states[i + 1], k);
  }

  lemma {:induction false} StaysVanished(
    sha: Digest, states: seq<Sys>, steps: seq<Step>, i: nat, j: nat, k: PayloadKey)
    requires IsRun(sha, states, steps) && states[0] == EmptyQueue(states[0].clock) && i <= j < |states|
    requires Vanished(states[i], k)
    ensures Vanished(states[j], k)
    decreases j - i
  {
    if i < j {
      NextIsVanished(sha, states, steps, i, k);
      StaysVanished(sha, states, steps, i + 1, j, k);
    }
  }

  /** In every run: once a cleanup, by the job's own `Complete` or by a reaper, has finished, no record ever names its
      payload again and nothing is ever stored under its key. */
  lemma FinishedCleanupLeavesNothing(
    sha: Digest, states: seq<Sys>, steps: seq<Step>, n: nat, c: nat, j: nat, id: Bytes)
    requires IsRun(sha, states, steps) && states[0] == EmptyQueue(states[0].clock) && n < j < |states|
    requires steps[n] == OfUpkeep(RemoveRecord(c)) && c in states[n].cleanups
    ensures var k := states[n].cleanups[c].job.payload;
            k !in states[j].payloads && (id in states[j].jobs ==> states[j].jobs[id].payload != k)
  {
    RunStaysSafe(sha, states, steps, n);
    assert Follows(sha, states[n], steps[n], states[n + 1]);
    RemovalVanishes(sha, states[n], c);
    StaysVanished(sha, states, steps, n + 1, j, states[n].cleanups[c].job.payload);
  }
}
