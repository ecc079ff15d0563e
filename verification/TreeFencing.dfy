/** Fencing tokens over whole runs of the tree. */
module TreeFencing {
  import opened ByteStrings
  import opened Results
  import opened Nodes
  import opened TreeStore
  import opened TreeSystem

  /** The lease has handed out `token` and at least one token since. */
  predicate Superseded(s: Sys, lease: Bytes, token: nat) {
    lease in s.meta.leases && token < s.meta.leases[lease]
  }

  /** The step releases the lease: its token is the current one. */
  predicate Releases(s: Sys, a: Step, lease: Bytes) {
    a.OfLease? && a.lease.ReleaseLease? && a.lease.lease == lease && LeaseHeld(s.meta, lease, a.lease.token)
  }

  /** The step acquires the lease when it has no record. */
  predicate Restarts(s: Sys, a: Step, lease: Bytes) {
    a.OfLease? && a.lease.AcquireLease? && a.lease.lease == lease && lease !in s.meta.leases
  }

  /** The lease has no record, or its token is at least `count`. */
  predicate AtLeast(s: Sys, lease: Bytes, count: nat) {
    lease in s.meta.leases ==> s.meta.leases[lease] >= count
  }

  lemma LeaseStepKeepsCount(s: Sys, main: Bytes, a: LeaseStep, lease: Bytes, count: nat)
    requires AtLeast(s, lease, count) && !Restarts(s, OfLease(a), lease)
    ensures AtLeast(ApplyLease(s, main, a), lease, count)
    ensures lease in s.meta.leases && !Releases(s, OfLease(a), lease) ==> lease in ApplyLease(s, main, a).meta.leases
  {
  }

  /** Only an acquire of an absent lease takes the count back, and only a release removes it. */
  lemma StepKeepsCount(hs: Hasher, main: Bytes, s: Sys, a: Step, t: Sys, lease: Bytes, count: nat)
    requires Follows(hs, main, s, a, t) && AtLeast(s, lease, count) && !Restarts(s, a, lease)
    ensures AtLeast(t, lease, count)
    ensures lease in s.meta.leases && !Releases(s, a, lease) ==> lease in t.meta.leases
  {
    match a {
      case OfBlob(b) => BlobStepFrame(hs, s, b);
      case OfSession(n, b) => SessionStepLeaves(hs, s, n, b);
      case OfRef(b) => RefStepLeaves(s.meta, b);
      case OfLease(b) => LeaseStepKeepsCount(s, main, b, lease, count);
      case OfPlan(b) => PlanStepLeaves(hs, s, b);
      case OfSweep(b) => SweepStepLeaves(s, b);
    }
  }

  lemma NextKeepsCount(hs: Hasher, main: Bytes, states: seq<Sys>, steps: seq<Step>, n: nat, lease: Bytes, count: nat)
    requires IsRun(hs, main, states, steps) && n < |steps|
    requires AtLeast(states[n], lease, count) && !Restarts(states[n], steps[n], lease)
    ensures AtLeast(states[n + 1], lease, count)
    ensures lease in states[n].meta.leases && !Releases(states[n], steps[n], lease) ==>
              lease in states[n + 1].meta.leases
  {
    assert Follows(hs, main, states[n], steps[n], states[n + 1]);
    StepKeepsCount(hs, main, states[n], steps[n], states[n + 1], lease, count);
  }

  lemma NextRestarts(hs: Hasher, main: Bytes, states: seq<Sys>, steps: seq<Step>, n: nat, lease: Bytes)
    requires IsRun(hs, main, states, steps) && n < |steps| && Restarts(states[n], steps[n], lease)
    ensures LeaseHeld(states[n + 1].meta, lease, 1)
  {
    assert Follows(hs, main, states[n], steps[n], states[n + 1]);
    AcquireOfAbsentRestarts(states[n].meta, lease, 1);
  }

  /** No step from state `i` up to state `j` acquires the lease while it has no record. */
  ghost predicate NoRestart(states: seq<Sys>, steps: seq<Step>, lease: Bytes, i: nat, j: nat)
    requires j <= |steps| < |states|
  {
    forall n {:trigger steps[n]} :: i <= n < j ==> !Restarts(states[n], steps[n], lease)
  }

  /** No step from state `i` up to state `j` releases the lease. */
  ghost predicate NoRelease(states: seq<Sys>, steps: seq<Step>, lease: Bytes, i: nat, j: nat)
    requires j <= |steps| < |states|
  {
    forall n {:trigger steps[n]} :: i <= n < j ==> !Releases(states[n], steps[n], lease)
  }

  lemma {:induction false} CountStays(
    hs: Hasher, main: Bytes, states: seq<Sys>, steps: seq<Step>, i: nat, j: nat, lease: Bytes, count: nat)
    requires IsRun(hs, main, states, steps) && i <= j <= |steps| && NoRestart(states, steps, lease, i, j)
    requires AtLeast(states[i], lease, count)
    ensures AtLeast(states[j], lease, count)
    decreases j
  {
    if i < j {
      CountStays(hs, main, states, steps, i, j - 1, lease, count);
      NextKeepsCount(hs, main, states, steps, j - 1, lease, count);
    }
  }

  /** In no state from `i` to `j` is a token accepted that was superseded at `i`. */
  ghost predicate StaysFenced(states: seq<Sys>, lease: Bytes, i: nat, j: nat)
    requires i <= j < |states|
  {
    forall n, token :: i <= n <= j && Superseded(states[i], lease, token) ==> !LeaseHeld(states[n].meta, lease, token)
  }

  lemma NoRestartFences(
    hs: Hasher, main: Bytes, states: seq<Sys>, steps: seq<Step>, i: nat, j: nat, lease: Bytes)
    requires IsRun(hs, main, states, steps) && i <= j <= |steps| && NoRestart(states, steps, lease, i, j)
    ensures StaysFenced(states, lease, i, j)
  {
    forall n, token | i <= n <= j && Superseded(states[i], lease, token)
      ensures !LeaseHeld(states[n].meta, lease, token)
    {
      CountStays(hs, main, states, steps, i, n, lease, states[i].meta.leases[lease]);
    }
  }

  lemma RestartUnfences(
    hs: Hasher, main: Bytes, states: seq<Sys>, steps: seq<Step>, i: nat, j: nat, lease: Bytes, n: nat)
    requires IsRun(hs, main, states, steps) && i <= n < j <= |steps|
    requires Superseded(states[i], lease, 1) && Restarts(states[n], steps[n], lease)
    ensures !StaysFenced(states, lease, i, j)
  {
    NextRestarts(hs, main, states, steps, n, lease);
    assert LeaseHeld(states[n + 1].meta, lease, 1);
  }

  /** In every run in which token 1 has been superseded, no superseded token is ever accepted again exactly when the
      lease is not acquired while its record is gone. */
  lemma FencedIffNoRestart(
    hs: Hasher, main: Bytes, states: seq<Sys>, steps: seq<Step>, i: nat, j: nat, lease: Bytes)
    requires IsRun(hs, main, states, steps) && i <= j <= |steps| && Superseded(states[i], lease, 1)
    ensures StaysFenced(states, lease, i, j) <==> NoRestart(states, steps, lease, i, j)
  {
    if NoRestart(states, steps, lease, i, j) {
      NoRestartFences(hs, main, states, steps, i, j, lease);
    } else {
      var n :| i <= n < j && Restarts(states[n], steps[n], lease);
      RestartUnfences(hs, main, states, steps, i, j, lease, n);
    }
  }

  /** Without a release the record stays, and with it the count. */
  lemma {:induction false} UnreleasedStays(
    hs: Hasher, main: Bytes, states: seq<Sys>, steps: seq<Step>, i: nat, j: nat, lease: Bytes)
    requires IsRun(hs, main, states, steps) && i <= j <= |steps| && NoRelease(states, steps, lease, i, j)
    requires lease in states[i].meta.leases
    ensures lease in states[j].meta.leases && NoRestart(states, steps, lease, i, j)
    decreases j
  {
    if i < j {
      UnreleasedStays(hs, main, states, steps, i, j - 1, lease);
      NextKeepsCount(hs, main, states, steps, j - 1, lease, 0);
    }
  }

  /** So it is enough that nobody releases the lease: then no superseded token, whichever, is accepted again. */
  lemma SupersededStaysFenced(hs: Hasher, main: Bytes, states: seq<Sys>, steps: seq<Step>, i: nat, j: nat, lease: Bytes)
    requires IsRun(hs, main, states, steps) && i <= j <= |steps| && NoRelease(states, steps, lease, i, j)
    ensures StaysFenced(states, lease, i, j)
  {
    if lease in states[i].meta.leases {
      UnreleasedStays(hs, main, states, steps, i, j, lease);
      NoRestartFences(hs, main, states, steps, i, j, lease);
    }
  }

  /** The exception is real: a release and an acquire, and token 1 is accepted again. */
  lemma ReleaseReopens(hs: Hasher, main: Bytes, s: Sys, lease: Bytes, token: nat, role: Role)
    returns (states: seq<Sys>, steps: seq<Step>)
    requires LeaseHeld(s.meta, lease, token) && token > 1
    ensures IsRun(hs, main, states, steps) && states[0] == s && |steps| == 2
    ensures Superseded(s, lease, 1) && LeaseHeld(states[2].meta, lease, 1)
  {
    var release, acquire := OfLease(ReleaseLease(lease, token)), OfLease(AcquireLease(lease, role));
    var released := Apply(hs, main, s, release);
    var again := Apply(hs, main, released, acquire);
    states, steps := [s, released, again], [release, acquire];
    assert Follows(hs, main, states[0], steps[0], states[1]) && Follows(hs, main, states[1], steps[1], states[2]);
    AcquireOfAbsentRestarts(released.meta, lease, 1);
  }
}
