/** Queue job records and what each metadata transaction does to them. */
module Jobs {
  import opened ByteStrings
  import opened Results
  import opened Sorting

  datatype State = Pending | Claimed | Dead | Completed

  /** A payload's blob key: the job's ID and a suffix that no other upload shares. */
  datatype PayloadKey = PayloadKey(id: Bytes, serial: nat)

  /** A job record. Times are instants; `None` is the zero time or the empty token. */
  datatype Job = Job(
    id: Bytes, state: State,
    payload: PayloadKey, size: nat, digest: Bytes,
    attempts: nat, maxRetries: int,
    availableAt: int, leaseUntil: Option<int>, leaseToken: Option<nat>,
    createdAt: int, updatedAt: int)

  type Records = map<Bytes, Job>
  type Payloads = map<PayloadKey, Bytes>

  datatype Error = NoJob | JobNotFound | NotClaimed | NotDead | LeaseExpired | SizeMismatch | Unavailable

  function NewJob(id: Bytes, payload: PayloadKey, size: nat, digest: Bytes, maxRetries: int, now: int,
      delay: int): Job {
    Job(id, Pending, payload, size, digest, 0, maxRetries, now + delay, None, None, now, now)
  }

  // ---- Claim ----

  predicate Eligible(j: Job, now: int) {
    j.state.Pending? && j.availableAt <= now
  }

  /** Claim order: earliest available, then earliest created, then smallest ID. */
  predicate NotLater(a: Job, b: Job) {
    || a.availableAt < b.availableAt
    || (a.availableAt == b.availableAt
        && (a.createdAt < b.createdAt || (a.createdAt == b.createdAt && AtMost(a.id, b.id))))
  }

  predicate Earlier(a: Job, b: Job) {
    NotLater(a, b) && !NotLater(b, a)
  }

  ghost predicate IsFirst(jobs: Records, now: int, id: Bytes) {
    && id in jobs && Eligible(jobs[id], now)
    && forall other :: other in jobs && Eligible(jobs[other], now) ==> NotLater(jobs[id], jobs[other])
  }

  /** The same about the records' fields. */
  lemma FirstInFields(jobs: Records, now: int, id: Bytes)
    requires OwnIds(jobs) && IsFirst(jobs, now, id)
    ensures jobs[id].state.Pending? && jobs[id].availableAt <= now
    ensures forall other ::
              other in jobs && other != id && jobs[other].state.Pending? && jobs[other].availableAt <= now ==>
                || jobs[id].availableAt < jobs[other].availableAt
                || (jobs[id].availableAt == jobs[other].availableAt
                    && (jobs[id].createdAt < jobs[other].createdAt
                        || (jobs[id].createdAt == jobs[other].createdAt && Less(id, other))))
  {
    forall other | other in jobs && other != id && jobs[other].state.Pending? && jobs[other].availableAt <= now
      ensures NotLater(jobs[id], jobs[other])
    {
      assert Eligible(jobs[other], now);
    }
  }

  function Leased(j: Job, now: int, lease: int, token: nat): Job {
    j.(state := Claimed,
       attempts := j.attempts + 1,
       leaseUntil := Some(now + lease),
       leaseToken := Some(token),
       updatedAt := now)
  }

  // ---- Transitions by a claim's holder ----

  /** The record a handle may change: claimed under the handle's token, lease not yet over. */
  predicate Holds(jobs: Records, id: Bytes, token: Option<nat>, now: int) {
    && id in jobs && jobs[id].state.Claimed? && token.Some? && jobs[id].leaseToken == token
    && jobs[id].leaseUntil.Some? && jobs[id].leaseUntil.value > now
  }

  function WhyNotHeld(jobs: Records, id: Bytes, token: Option<nat>, now: int): Error {
    if id !in jobs then JobNotFound
    else if !jobs[id].state.Claimed? || jobs[id].leaseToken.None? || jobs[id].leaseToken != token then NotClaimed
    else LeaseExpired
  }

  function Renewed(j: Job, now: int, until: int): Job {
    j.(leaseUntil := Some(until), updatedAt := now)
  }

  function Released(j: Job, now: int): Job {
    j.(leaseUntil := None, leaseToken := None, updatedAt := now)
  }

  /** Back to pending, or to the dead letters when the attempts are used up. */
  function Retried(j: Job, now: int, availableAt: int): Job {
    if j.attempts >= j.maxRetries then Released(j.(state := Dead), now)
    else Released(j.(state := Pending, availableAt := availableAt), now)
  }

  function Buried(j: Job, now: int): Job {
    Released(j.(state := Dead), now)
  }

  function Finished(j: Job, now: int): Job {
    j.(state := Completed, leaseUntil := None, updatedAt := now)
  }

  predicate Marked(jobs: Records, id: Bytes, token: Option<nat>) {
    id in jobs && jobs[id].state.Completed? && jobs[id].leaseToken == token
  }

  /** The first transaction of `Complete`: idempotent for the job's own completion, silent for a removed job. */
  function MarkComplete(jobs: Records, id: Bytes, token: Option<nat>, now: int): (Result<(), Error>, Records) {
    if id !in jobs || Marked(jobs, id, token) then (Ok(()), jobs)
    else if Holds(jobs, id, token, now) then (Ok(()), jobs[id := Finished(jobs[id], now)])
    else (Err(WhyNotHeld(jobs, id, token, now)), jobs)
  }

  /** The last transaction of `Complete`, and of the reaper for each completed record it saw. */
  function RemoveCompleted(jobs: Records, id: Bytes, token: Option<nat>): Records {
    if Marked(jobs, id, token) then jobs - {id} else jobs
  }

  function Requeued(j: Job, now: int): Job {
    j.(state := Pending, attempts := 0, availableAt := now, leaseUntil := None, updatedAt := now)
  }

  predicate Expired(j: Job, now: int) {
    j.state.Claimed? && j.leaseUntil.Some? && j.leaseUntil.value <= now
  }

  function Reaped(j: Job, now: int): Job {
    if Expired(j, now) then Retried(j, now, now) else j
  }

  /** The reaper's transaction: every expired lease ends. */
  function ReapAll(jobs: Records, now: int): Records {
    map id | id in jobs :: Reaped(jobs[id], now)
  }

  lemma ClaimOrder()
    ensures Preorder(NotLater)
    ensures forall a, b :: NotLater(a, b) && NotLater(b, a) ==> a.id == b.id
  {
    LessIsStrictOrder();
  }

  // ---- The order in which claims come out ----

  /** One claim at time `now` with no other change. */
  ghost predicate ClaimStep(jobs: Records, now: int, id: Bytes, after: Records) {
    IsFirst(jobs, now, id) && exists lease, token :: after == jobs[id := Leased(jobs[id], now, lease, token)]
  }

  /** Successive claims, each at its own time. */
  ghost predicate ClaimRun(states: seq<Records>, times: seq<int>, ids: seq<Bytes>) {
    && |states| == |ids| + 1 && |times| == |ids|
    && (forall i {:trigger ids[i]} :: 0 <= i < |ids| ==> ClaimStep(states[i], times[i], ids[i], states[i + 1]))
    && (forall i, j :: 0 <= i < j < |times| ==> times[i] <= times[j])
  }

  ghost predicate OwnIds(jobs: Records) {
    forall id :: id in jobs ==> jobs[id].id == id
  }

  /** One claim step: only the claimed job changes, and it is claimed. */
  lemma ClaimChangesOne(jobs: Records, now: int, id: Bytes, after: Records)
    requires ClaimStep(jobs, now, id, after)
    ensures after.Keys == jobs.Keys && id in after && after[id].state.Claimed?
    ensures forall other :: other in jobs && other != id ==> after[other] == jobs[other]
  {
  }

  /** Only the record of `id` differs, and it is claimed afterwards. */
  ghost predicate ClaimsOnly(jobs: Records, id: Bytes, after: Records) {
    && after.Keys == jobs.Keys && id in after && after[id].state.Claimed?
    && forall other :: other in jobs && other != id ==> after[other] == jobs[other]
  }

  ghost predicate EachClaimsOnly(states: seq<Records>, ids: seq<Bytes>) {
    |states| == |ids| + 1
    && forall i {:trigger ids[i]} :: 0 <= i < |ids| ==> ClaimsOnly(states[i], ids[i], states[i + 1])
  }

  /** Of the first records, those in `claimed` have been claimed and the others are as they were. */
  ghost predicate OnlyClaimed(first: Records, now: Records, claimed: set<Bytes>) {
    && now.Keys == first.Keys
    && (forall id :: id in first && id !in claimed ==> now[id] == first[id])
    && (forall id :: id in claimed ==> id in now && now[id].state.Claimed?)
  }

  lemma OneMoreClaimed(first: Records, before: Records, after: Records, claimed: set<Bytes>, id: Bytes)
    requires OnlyClaimed(first, before, claimed) && ClaimsOnly(before, id, after)
    ensures OnlyClaimed(first, after, claimed + {id})
  {
  }

  function IdsUpTo(ids: seq<Bytes>, n: nat): set<Bytes>
    requires n <= |ids|
  {
    if n == 0 then {} else IdsUpTo(ids, n - 1) + {ids[n - 1]}
  }

  lemma {:induction false} IdsUpToAre(ids: seq<Bytes>, n: nat, id: Bytes)
    requires n <= |ids|
    ensures id in IdsUpTo(ids, n) <==> id in ids[..n]
  {
    if n > 0 {
      IdsUpToAre(ids, n - 1, id);
      assert ids[..n] == ids[..n - 1] + [ids[n - 1]];
    }
  }

  lemma {:induction false} RunClaims(states: seq<Records>, ids: seq<Bytes>, n: nat)
    requires EachClaimsOnly(states, ids) && n <= |ids|
    ensures OnlyClaimed(states[0], states[n], IdsUpTo(ids, n))
  {
    if n > 0 {
      RunClaims(states, ids, n - 1);
      assert ClaimsOnly(states[n - 1], ids[n - 1], states[n]);
      OneMoreClaimed(states[0], states[n - 1], states[n], IdsUpTo(ids, n - 1), ids[n - 1]);
    }
  }

  /** A job not yet claimed in the run still has its first record. */
  lemma UnclaimedUnchanged(states: seq<Records>, times: seq<int>, ids: seq<Bytes>, n: nat)
    requires ClaimRun(states, times, ids) && n <= |ids|
    ensures states[n].Keys == states[0].Keys
    ensures forall id :: id in states[0] && id !in ids[..n] ==> states[n][id] == states[0][id]
    ensures forall id :: id in ids[..n] ==> id in states[n] && states[n][id].state.Claimed?
  {
    forall i {:trigger ids[i]} | 0 <= i < |ids| ensures ClaimsOnly(states[i], ids[i], states[i + 1]) {
      assert ClaimStep(states[i], times[i], ids[i], states[i + 1]);
      ClaimChangesOne(states[i], times[i], ids[i], states[i + 1]);
    }
    RunClaims(states, ids, n);
    forall id ensures id in IdsUpTo(ids, n) <==> id in ids[..n] {
      IdsUpToAre(ids, n, id);
    }
  }

  /** With a clock that never goes back, and no other operation between, claims come out strictly ascending in
      (available, created, ID), even as delayed jobs become visible. */
  lemma ClaimsAscend(states: seq<Records>, times: seq<int>, ids: seq<Bytes>, i: nat, j: nat)
    requires ClaimRun(states, times, ids) && OwnIds(states[0]) && i < j < |ids|
    ensures ids[i] in states[0] && ids[j] in states[0] && ids[i] != ids[j]
    ensures Earlier(states[0][ids[i]], states[0][ids[j]])
  {
    UnclaimedUnchanged(states, times, ids, i);
    UnclaimedUnchanged(states, times, ids, j);
    var a, b := ids[i], ids[j];
    assert ClaimStep(states[i], times[i], a, states[i + 1]);
    assert ClaimStep(states[j], times[j], b, states[j + 1]);
    assert a in ids[..j] && b !in ids[..j] && a !in ids[..i];
    assert b !in ids[..i] by {
      assert forall k :: 0 <= k < i ==> ids[..i][k] == ids[..j][k];
    }
    ClaimOrder();
    if Eligible(states[0][b], times[i]) {
      assert NotLater(states[0][a], states[0][b]);
    }
  }

  /** Claiming at one moment until nothing is eligible yields every eligible job exactly once. */
  lemma DrainTakesEachOnce(states: seq<Records>, ids: seq<Bytes>, now: int)
    requires ClaimRun(states, seq(|ids|, _ => now), ids) && OwnIds(states[0])
    requires forall id :: id in states[|ids|] ==> !Eligible(states[|ids|][id], now)
    ensures forall id :: id in ids <==> id in states[0] && Eligible(states[0][id], now)
    ensures forall i, j :: 0 <= i < j < |ids| ==> ids[i] != ids[j]
  {
    var times := seq(|ids|, _ => now);
    UnclaimedUnchanged(states, times, ids, |ids|);
    assert ids[..|ids|] == ids;
    forall i | 0 <= i < |ids| ensures ids[i] in states[0] && Eligible(states[0][ids[i]], now) {
      UnclaimedUnchanged(states, times, ids, i);
      assert ClaimStep(states[i], times[i], ids[i], states[i + 1]);
    }
    forall i, j | 0 <= i < j < |ids| ensures ids[i] != ids[j] {
      ClaimsAscend(states, times, ids, i, j);
    }
  }
}
