/** Whatever interleaves, crashes or fails to delete: a job's payload is there until the job is completed, and a record
    goes only after its own payload. */
module QueuePayloads {
  import opened ByteStrings
  import opened Results
  import opened Jobs
  import opened QueueSystem

  ghost predicate PayloadIntact(sha: Digest, payloads: Payloads, j: Job) {
    j.payload in payloads && sha(payloads[j.payload]) == j.digest && |payloads[j.payload]| == j.size
  }

  /** Token `t` was granted for this very incarnation of the job. */
  ghost predicate GrantedFor(s: Sys, t: nat, j: Job) {
    t in s.grants && s.grants[t].id == j.id && s.grants[t].payload == j.payload
  }

  ghost predicate TokenOk(s: Sys, j: Job) {
    match j.state
    case Claimed => j.leaseToken.Some? && j.leaseUntil.Some? && GrantedFor(s, j.leaseToken.value, j)
    case Completed => j.leaseToken.Some? && GrantedFor(s, j.leaseToken.value, j)
    case _ => j.leaseToken.None? && j.leaseUntil.None?
  }

  ghost predicate RecordOk(sha: Digest, s: Sys, id: Bytes, j: Job) {
    && j.id == id && j.payload.id == id && j.payload in s.tallies && TokenOk(s, j)
    && (j.state.Completed? || PayloadIntact(sha, s.payloads, j))
  }

  ghost predicate RecordsOk(sha: Digest, s: Sys) {
    forall id :: id in s.jobs ==> RecordOk(sha, s, id, s.jobs[id])
  }

  ghost predicate SerialsUsed(s: Sys) {
    && (forall k :: k in s.tallies ==> k.serial in s.used)
    && (forall t :: t in s.grants ==>
              t in s.used && s.grants[t].payload in s.tallies && s.grants[t].payload.id == s.grants[t].id)
  }

  /** An upload in flight was never published; until it lost, its body is intact. */
  ghost predicate UploadOk(sha: Digest, s: Sys, n: nat, u: Upload) {
    && n in s.used && u.job.payload == PayloadKey(u.job.id, n) && u.job.payload !in s.tallies
    && u.job.state.Pending? && u.job.attempts == 0 && u.job.leaseToken.None? && u.job.leaseUntil.None?
    && (!u.losing ==> PayloadIntact(sha, s.payloads, u.job))
  }

  ghost predicate UploadsOk(sha: Digest, s: Sys) {
    forall n :: n in s.uploads ==> UploadOk(sha, s, n, s.uploads[n])
  }

  ghost predicate HandleOk(s: Sys, t: nat, h: Job) {
    h.leaseToken == Some(t) && GrantedFor(s, t, h)
  }

  ghost predicate HandlesOk(s: Sys) {
    forall t :: t in s.handles ==> HandleOk(s, t, s.handles[t])
  }

  /** `j` is a copy of an incarnation that is completed under the same token, or gone. */
  ghost predicate Over(s: Sys, j: Job) {
    && j.leaseToken.Some? && GrantedFor(s, j.leaseToken.value, j)
    && (j.id in s.jobs && s.jobs[j.id].payload == j.payload ==>
          s.jobs[j.id].state.Completed? && s.jobs[j.id].leaseToken == j.leaseToken)
  }

  ghost predicate CleanupOk(s: Sys, c: Cleanup) {
    Over(s, c.job) && (c.deleted ==> c.job.payload !in s.payloads)
  }

  ghost predicate CleanupsOk(s: Sys) {
    && (forall c :: c in s.cleanups ==> CleanupOk(s, s.cleanups[c]))
    && (forall j :: j in s.seen ==> Over(s, j))
  }

  ghost predicate CallsOk(sha: Digest, s: Sys) {
    SerialsUsed(s) && UploadsOk(sha, s) && HandlesOk(s) && CleanupsOk(s)
  }

  /** The invariant of every run. */
  ghost predicate Safe(sha: Digest, s: Sys) {
    RecordsOk(sha, s) && CallsOk(sha, s)
  }

  /** Every pending, claimed or dead record names a stored body of the recorded size and digest. */
  ghost predicate PayloadsStored(sha: Digest, s: Sys) {
    forall id :: id in s.jobs && !s.jobs[id].state.Completed? ==> PayloadIntact(sha, s.payloads, s.jobs[id])
  }

  // ---- What any step may do to what is already there ----

  /** A record keeps its incarnation, and does not change once it is completed; a new incarnation has a new payload
      key. */
  ghost predicate RecordAges(s: Sys, t: Sys, id: Bytes)
    requires id in t.jobs
  {
    || (id in s.jobs && t.jobs[id].payload == s.jobs[id].payload
        && (s.jobs[id].state.Completed? ==> t.jobs[id] == s.jobs[id]))
    || t.jobs[id].payload !in s.tallies
  }

  ghost predicate Ages(s: Sys, t: Sys) {
    && (forall k :: k in s.grants ==>
              k in t.grants && t.grants[k].id == s.grants[k].id && t.grants[k].payload == s.grants[k].payload)
    && (forall id :: id in t.jobs ==> RecordAges(s, t, id))
  }

  /** Bodies are only added under keys never used, or not at all. */
  ghost predicate BodiesAge(s: Sys, t: Sys) {
    && (forall k :: k in s.payloads ==> k in t.payloads && t.payloads[k] == s.payloads[k])
    && (forall k :: k in t.payloads && k !in s.payloads ==> k.serial !in s.used)
  }

  lemma OverStays(s: Sys, t: Sys, j: Job)
    requires Ages(s, t) && SerialsUsed(s) && Over(s, j)
    ensures Over(t, j)
  {
    if j.id in t.jobs {
      assert RecordAges(s, t, j.id);
    }
  }

  lemma CleanupStays(s: Sys, t: Sys, c: Cleanup)
    requires Ages(s, t) && BodiesAge(s, t) && SerialsUsed(s) && CleanupOk(s, c)
    ensures CleanupOk(t, c)
  {
    OverStays(s, t, c.job);
  }

  /** Calls in flight stay sound under a step that adds no call. */
  lemma CallsStay(sha: Digest, s: Sys, t: Sys)
    requires CallsOk(sha, s) && Ages(s, t) && BodiesAge(s, t)
    requires s.used <= t.used && t.tallies.Keys == s.tallies.Keys && t.grants.Keys == s.grants.Keys
    requires forall n :: n in t.uploads ==> n in s.uploads && t.uploads[n] == s.uploads[n]
    requires forall k :: k in t.handles ==> k in s.handles && HandleOk(s, k, t.handles[k])
    requires forall c :: c in t.cleanups ==> c in s.cleanups && t.cleanups[c] == s.cleanups[c]
    requires t.seen <= s.seen
    ensures CallsOk(sha, t)
  {
    forall n | n in t.uploads ensures UploadOk(sha, t, n, t.uploads[n]) {
      assert UploadOk(sha, s, n, s.uploads[n]);
    }
    forall c | c in t.cleanups ensures CleanupOk(t, t.cleanups[c]) {
      CleanupStays(s, t, s.cleanups[c]);
    }
    forall j | j in t.seen ensures Over(t, j) {
      OverStays(s, t, j);
    }
  }

  /** Replacing one record by a sound one keeps all records sound. */
  lemma RecordsStay(sha: Digest, s: Sys, t: Sys)
    requires RecordsOk(sha, s) && Ages(s, t)
    requires forall k :: k in s.payloads ==> k in t.payloads && t.payloads[k] == s.payloads[k]
    requires s.tallies.Keys <= t.tallies.Keys
    requires forall id :: id in t.jobs ==>
               (id in s.jobs && t.jobs[id] == s.jobs[id]) || RecordOk(sha, t, id, t.jobs[id])
    ensures RecordsOk(sha, t)
  {
    forall id | id in t.jobs ensures RecordOk(sha, t, id, t.jobs[id]) {
      if id in s.jobs && t.jobs[id] == s.jobs[id] {
        assert RecordOk(sha, s, id, s.jobs[id]);
      }
    }
  }

  // ---- Enqueue ----

  /** A body under a key that no published job has disturbs no record. */
  lemma NewBodyKeepsRecords(sha: Digest, s: Sys, t: Sys, key: PayloadKey, body: Bytes)
    requires RecordsOk(sha, s) && key !in s.tallies
    requires t.jobs == s.jobs && t.payloads == s.payloads[key := body] && t.tallies == s.tallies && t.grants == s.grants
    ensures RecordsOk(sha, t)
  {
    forall i | i in s.jobs ensures RecordOk(sha, t, i, s.jobs[i]) {
      assert RecordOk(sha, s, i, s.jobs[i]);
    }
  }

  /** Nor any call, when its serial was never used. */
  lemma NewBodyKeepsCalls(sha: Digest, s: Sys, t: Sys, key: PayloadKey, body: Bytes)
    requires CallsOk(sha, s) && key.serial !in s.used
    requires t == s.(payloads := s.payloads[key := body], used := s.used + {key.serial}, uploads := t.uploads)
    requires forall m :: m in t.uploads ==>
               (m in s.uploads && t.uploads[m] == s.uploads[m]) || UploadOk(sha, t, m, t.uploads[m])
    ensures CallsOk(sha, t)
  {
    NewBodyKeepsUploads(sha, s, t, key, body);
    forall c | c in s.cleanups ensures CleanupOk(t, s.cleanups[c]) {
      assert CleanupOk(s, s.cleanups[c]);
    }
    forall j | j in s.seen ensures Over(t, j) {
      OverStays(s, t, j);
    }
  }

  lemma NewBodyKeepsUploads(sha: Digest, s: Sys, t: Sys, key: PayloadKey, body: Bytes)
    requires UploadsOk(sha, s) && key.serial !in s.used
    requires t == s.(payloads := s.payloads[key := body], used := s.used + {key.serial}, uploads := t.uploads)
    requires forall m :: m in t.uploads ==>
               (m in s.uploads && t.uploads[m] == s.uploads[m]) || UploadOk(sha, t, m, t.uploads[m])
    ensures UploadsOk(sha, t)
  {
    forall m | m in t.uploads ensures UploadOk(sha, t, m, t.uploads[m]) {
      assert m in s.uploads ==> UploadOk(sha, s, m, s.uploads[m]);
    }
  }

  lemma UploadKeepsSafe(sha: Digest, s: Sys, n: nat, id: Bytes, body: Bytes, maxRetries: int, now: int, delay: int)
    requires Safe(sha, s) && n !in s.used
    ensures Safe(sha, DoUpload(sha, s, n, id, body, maxRetries, now, delay))
    ensures Ages(s, DoUpload(sha, s, n, id, body, maxRetries, now, delay))
  {
    var t := DoUpload(sha, s, n, id, body, maxRetries, now, delay);
    var key := PayloadKey(id, n);
    assert key !in s.tallies;
    assert UploadOk(sha, t, n, t.uploads[n]);
    NewBodyKeepsRecords(sha, s, t, key, body);
    NewBodyKeepsCalls(sha, s, t, key, body);
  }

  lemma CreatedIsOk(sha: Digest, s: Sys, n: nat)
    requires Safe(sha, s) && EnqueueEnabled(s, Publish(n)) && s.uploads[n].job.id !in s.jobs
    ensures var t, j := DoPublish(s, n), s.uploads[n].job;
            RecordOk(sha, t, j.id, j) && j.payload.serial == n && n in s.used && Ages(s, t)
  {
    assert UploadOk(sha, s, n, s.uploads[n]);
  }

  lemma CreateKeepsCalls(sha: Digest, s: Sys, n: nat)
    requires Safe(sha, s) && EnqueueEnabled(s, Publish(n)) && s.uploads[n].job.id !in s.jobs
    requires s.uploads[n].job.payload.serial == n && n in s.used && Ages(s, DoPublish(s, n))
    ensures CallsOk(sha, DoPublish(s, n))
  {
    var t := DoPublish(s, n);
    forall m | m in t.uploads ensures UploadOk(sha, t, m, t.uploads[m]) {
      assert UploadOk(sha, s, m, s.uploads[m]);
    }
    forall c | c in s.cleanups ensures CleanupOk(t, s.cleanups[c]) {
      CleanupStays(s, t, s.cleanups[c]);
    }
    forall k | k in s.seen ensures Over(t, k) {
      OverStays(s, t, k);
    }
  }

  lemma CreateKeepsSafe(sha: Digest, s: Sys, n: nat)
    requires Safe(sha, s) && EnqueueEnabled(s, Publish(n)) && s.uploads[n].job.id !in s.jobs
    ensures Safe(sha, DoPublish(s, n)) && Ages(s, DoPublish(s, n))
  {
    CreatedIsOk(sha, s, n);
    RecordsStay(sha, s, DoPublish(s, n));
    CreateKeepsCalls(sha, s, n);
  }

  lemma LoseKeepsSafe(sha: Digest, s: Sys, n: nat, t: Sys)
    requires Safe(sha, s) && n in s.uploads && t == s.(uploads := s.uploads[n := s.uploads[n].(losing := true)])
    ensures Safe(sha, t) && Ages(s, t)
  {
    RecordsStay(sha, s, t);
    assert UploadsOk(sha, t) by {
      assert UploadOk(sha, s, n, s.uploads[n]);
      forall m | m in t.uploads ensures UploadOk(sha, t, m, t.uploads[m]) {
        assert UploadOk(sha, s, m, s.uploads[m]);
      }
    }
    CleanupsStay(s, t);
  }

  lemma CleanupsStay(s: Sys, t: Sys)
    requires CleanupsOk(s) && t.cleanups == s.cleanups && t.seen == s.seen
    requires t.jobs == s.jobs && t.grants == s.grants && t.payloads == s.payloads
    ensures CleanupsOk(t)
  {
    forall c | c in s.cleanups ensures CleanupOk(t, s.cleanups[c]) {
      assert CleanupOk(s, s.cleanups[c]);
    }
    forall k | k in s.seen ensures Over(t, k) {
      assert Over(s, k);
    }
  }

  lemma DropKeepsSafe(sha: Digest, s: Sys, n: nat)
    requires Safe(sha, s) && EnqueueEnabled(s, DropUpload(n))
    ensures Safe(sha, ApplyEnqueue(sha, s, DropUpload(n))) && Ages(s, ApplyEnqueue(sha, s, DropUpload(n)))
  {
    var t := ApplyEnqueue(sha, s, DropUpload(n));
    assert UploadOk(sha, s, n, s.uploads[n]);
    BodyGoneKeepsSafe(sha, s, t, s.uploads[n].job.payload);
  }

  /** Deleting a body that no unfinished record and no other upload names. */
  lemma BodyGoneKeepsSafe(sha: Digest, s: Sys, t: Sys, k: PayloadKey)
    requires Safe(sha, s) && t == s.(payloads := s.payloads - {k}, uploads := t.uploads, cleanups := t.cleanups)
    requires forall id :: id in s.jobs && !s.jobs[id].state.Completed? ==> s.jobs[id].payload != k
    requires forall n :: n in t.uploads ==>
              n in s.uploads && t.uploads[n] == s.uploads[n] && (s.uploads[n].losing || s.uploads[n].job.payload != k)
    requires t.cleanups.Keys == s.cleanups.Keys
    requires forall c :: c in t.cleanups ==>
               || t.cleanups[c] == s.cleanups[c]
               || (t.cleanups[c].job == s.cleanups[c].job && s.cleanups[c].job.payload == k)
    ensures Safe(sha, t) && Ages(s, t)
  {
    BodyGoneKeepsRecords(sha, s, t, k);
    assert UploadsOk(sha, t) by {
      forall n | n in t.uploads ensures UploadOk(sha, t, n, t.uploads[n]) {
        assert UploadOk(sha, s, n, s.uploads[n]);
      }
    }
    assert HandlesOk(t) && SerialsUsed(t);
    BodyGoneKeepsCleanups(s, t, k);
  }

  lemma BodyGoneKeepsCleanups(s: Sys, t: Sys, k: PayloadKey)
    requires CleanupsOk(s) && t.jobs == s.jobs && t.grants == s.grants && t.seen == s.seen
    requires t.payloads == s.payloads - {k} && t.cleanups.Keys == s.cleanups.Keys
    requires forall c :: c in t.cleanups ==>
               || t.cleanups[c] == s.cleanups[c]
               || (t.cleanups[c].job == s.cleanups[c].job && s.cleanups[c].job.payload == k)
    ensures CleanupsOk(t)
  {
    forall c | c in t.cleanups ensures CleanupOk(t, t.cleanups[c]) {
      assert CleanupOk(s, s.cleanups[c]);
    }
  }

  lemma BodyGoneKeepsRecords(sha: Digest, s: Sys, t: Sys, k: PayloadKey)
    requires RecordsOk(sha, s)
    requires t.jobs == s.jobs && t.payloads == s.payloads - {k} && t.tallies == s.tallies && t.grants == s.grants
    requires forall id :: id in s.jobs && !s.jobs[id].state.Completed? ==> s.jobs[id].payload != k
    ensures RecordsOk(sha, t)
  {
    forall id | id in s.jobs ensures RecordOk(sha, t, id, s.jobs[id]) {
      assert RecordOk(sha, s, id, s.jobs[id]);
    }
  }

  lemma EnqueueKeepsSafe(sha: Digest, s: Sys, a: EnqueueStep)
    requires Safe(sha, s) && EnqueueEnabled(s, a)
    ensures Safe(sha, ApplyEnqueue(sha, s, a)) && Ages(s, ApplyEnqueue(sha, s, a))
  {
    match a {
      case UploadPayload(n, id, body, maxRetries, now, delay) =>
        UploadKeepsSafe(sha, s, n, id, body, maxRetries, now, delay);
      case Publish(n) =>
        if s.uploads[n].job.id in s.jobs {
          LoseKeepsSafe(sha, s, n, DoPublish(s, n));
        } else {
          CreateKeepsSafe(sha, s, n);
        }
      case FailPublish(n) => LoseKeepsSafe(sha, s, n, ApplyEnqueue(sha, s, a));
      case DropUpload(n) => DropKeepsSafe(sha, s, n);
    }
  }

  // ---- Claim ----

  lemma ClaimedIsOk(sha: Digest, s: Sys, id: Bytes, now: int, lease: int, token: nat)
    requires Safe(sha, s) && ClaimEnabled(s, id, now, token)
    ensures var t := DoClaim(s, id, now, lease, token);
            && RecordOk(sha, t, id, t.jobs[id]) && t.jobs[id].payload == s.jobs[id].payload
            && HandleOk(t, token, t.handles[token]) && t.tallies.Keys == s.tallies.Keys && token !in s.grants
            && t.grants[token].payload in s.tallies && t.grants[token].payload.id == t.grants[token].id
  {
    assert RecordOk(sha, s, id, s.jobs[id]);
  }

  lemma ClaimAges(s: Sys, id: Bytes, now: int, lease: int, token: nat)
    requires id in s.jobs && !s.jobs[id].state.Completed? && token !in s.grants
    ensures Ages(s, DoClaim(s, id, now, lease, token))
  {
  }

  lemma ClaimKeepsSafe(sha: Digest, s: Sys, id: Bytes, now: int, lease: int, token: nat)
    requires Safe(sha, s) && ClaimEnabled(s, id, now, token)
    ensures Safe(sha, DoClaim(s, id, now, lease, token)) && Ages(s, DoClaim(s, id, now, lease, token))
  {
    var t := DoClaim(s, id, now, lease, token);
    ClaimedIsOk(sha, s, id, now, lease, token);
    ClaimAges(s, id, now, lease, token);
    RecordsStay(sha, s, t);
    ClaimKeepsCalls(sha, s, id, now, lease, token);
  }

  lemma ClaimKeepsCalls(sha: Digest, s: Sys, id: Bytes, now: int, lease: int, token: nat)
    requires Safe(sha, s) && ClaimEnabled(s, id, now, token)
    ensures CallsOk(sha, DoClaim(s, id, now, lease, token))
  {
    var t := DoClaim(s, id, now, lease, token);
    ClaimedIsOk(sha, s, id, now, lease, token);
    var mid := s.(jobs := t.jobs, used := t.used);
    LeasedKeepsCalls(sha, s, mid, id);
    GrantKeepsCalls(sha, mid, t, token);
  }

  lemma LeasedKeepsCalls(sha: Digest, s: Sys, t: Sys, id: Bytes)
    requires CallsOk(sha, s) && id in s.jobs && !s.jobs[id].state.Completed? && s.used <= t.used
    requires id in t.jobs && t == s.(jobs := s.jobs[id := t.jobs[id]], used := t.used)
    requires t.jobs[id].payload == s.jobs[id].payload
    ensures CallsOk(sha, t)
  {
    assert Ages(s, t);
    CallsStay(sha, s, t);
  }

  /** A new grant under a fresh token, with its handle, disturbs no call. */
  lemma GrantKeepsCalls(sha: Digest, s: Sys, t: Sys, token: nat)
    requires CallsOk(sha, s) && token !in s.grants && token in s.used
    requires t == s.(clock := t.clock, grants := t.grants, handles := t.handles, tallies := t.tallies)
    requires token in t.grants && t.grants == s.grants[token := t.grants[token]] && t.tallies.Keys == s.tallies.Keys
    requires t.grants[token].payload in s.tallies && t.grants[token].payload.id == t.grants[token].id
    requires token in t.handles && t.handles == s.handles[token := t.handles[token]]
              && HandleOk(t, token, t.handles[token])
    ensures CallsOk(sha, t)
  {
    UploadsStay(sha, s, t);
    assert HandlesOk(t) by {
      forall k | k in t.handles ensures HandleOk(t, k, t.handles[k]) {
        assert k != token ==> HandleOk(s, k, s.handles[k]);
      }
    }
    GrantKeepsCleanups(s, t, token);
  }

  /** Uploads in flight do not depend on leases or records. */
  lemma UploadsStay(sha: Digest, s: Sys, t: Sys)
    requires UploadsOk(sha, s) && t.uploads == s.uploads && s.used <= t.used && t.payloads == s.payloads
    requires t.tallies.Keys == s.tallies.Keys
    ensures UploadsOk(sha, t)
  {
    forall n | n in t.uploads ensures UploadOk(sha, t, n, t.uploads[n]) {
      assert UploadOk(sha, s, n, s.uploads[n]);
    }
  }

  lemma GrantKeepsCleanups(s: Sys, t: Sys, token: nat)
    requires CleanupsOk(s) && t.cleanups == s.cleanups && t.seen == s.seen
    requires t.jobs == s.jobs && t.payloads == s.payloads
    requires token !in s.grants && token in t.grants && t.grants == s.grants[token := t.grants[token]]
    ensures CleanupsOk(t)
  {
    forall c | c in t.cleanups ensures CleanupOk(t, t.cleanups[c]) {
      assert CleanupOk(s, s.cleanups[c]);
    }
    forall j | j in t.seen ensures Over(t, j) {
      assert Over(s, j);
    }
  }

  // ---- The holder's steps ----

  lemma TransitionedOk(sha: Digest, s: Sys, id: Bytes, j: Job, a: HolderStep, now: int)
    requires RecordOk(sha, s, id, j) && j.state.Claimed?
    ensures RecordOk(sha, s, id, Transitioned(j, a, now)) && Transitioned(j, a, now).payload == j.payload
  {
  }

  lemma RecordChangeKeepsRecords(sha: Digest, s: Sys, t: Sys, id: Bytes)
    requires RecordsOk(sha, s) && Ages(s, t) && t.payloads == s.payloads && s.tallies.Keys <= t.tallies.Keys
    requires id in t.jobs && t.jobs == s.jobs[id := t.jobs[id]] && RecordOk(sha, s, id, t.jobs[id])
    ensures RecordsOk(sha, t)
  {
    assert RecordOk(sha, t, id, t.jobs[id]);
    RecordsStay(sha, s, t);
  }

  lemma RecordChangeKeepsSafe(sha: Digest, s: Sys, t: Sys, id: Bytes)
    requires Safe(sha, s) && id in t.jobs && RecordOk(sha, s, id, t.jobs[id]) && Ages(s, t)
    requires t == s.(jobs := s.jobs[id := t.jobs[id]],
                     clock := t.clock,
                     grants := t.grants,
                     handles := t.handles,
                     tallies := t.tallies)
    requires t.tallies.Keys == s.tallies.Keys && t.grants.Keys == s.grants.Keys
    requires forall k :: k in t.handles ==> k in s.handles && HandleOk(s, k, t.handles[k])
    ensures Safe(sha, t)
  {
    RecordChangeKeepsRecords(sha, s, t, id);
    CallsStay(sha, s, t);
  }

  lemma OneRecordAges(s: Sys, t: Sys, id: Bytes)
    requires id in s.jobs && id in t.jobs && t.jobs == s.jobs[id := t.jobs[id]]
    requires t.jobs[id].payload == s.jobs[id].payload && !s.jobs[id].state.Completed?
    requires t.grants.Keys == s.grants.Keys
    requires forall k :: k in s.grants ==>
               t.grants[k].id == s.grants[k].id && t.grants[k].payload == s.grants[k].payload
    ensures Ages(s, t)
  {
  }

  lemma MovedHandlesOk(s: Sys, t: nat, a: HolderStep, now: int)
    requires HandlesOk(s) && t in s.handles && s.handles[t].id in s.jobs
    ensures var u := Moved(s, t, a, now);
            forall k :: k in u.handles ==> k in s.handles && HandleOk(s, k, u.handles[k])
  {
    forall k | k in Moved(s, t, a, now).handles ensures HandleOk(s, k, Moved(s, t, a, now).handles[k]) {
      assert HandleOk(s, k, s.handles[k]);
    }
  }

  lemma MovedRecordOk(sha: Digest, s: Sys, t: nat, a: HolderStep, now: int)
    requires Safe(sha, s) && t in s.handles && Holds(s.jobs, s.handles[t].id, s.handles[t].leaseToken, now)
    ensures var u, h := Moved(s, t, a, now), s.handles[t];
            RecordOk(sha, s, h.id, u.jobs[h.id]) && u.jobs[h.id].payload == s.jobs[h.id].payload
  {
    var h := s.handles[t];
    assert RecordOk(sha, s, h.id, s.jobs[h.id]);
    TransitionedOk(sha, s, h.id, s.jobs[h.id], a, now);
  }

  lemma MovedAges(s: Sys, t: nat, a: HolderStep, now: int)
    requires t in s.handles && s.handles[t].id in s.jobs && s.jobs[s.handles[t].id].state.Claimed?
    requires Moved(s, t, a, now).jobs[s.handles[t].id].payload == s.jobs[s.handles[t].id].payload
    ensures Ages(s, Moved(s, t, a, now)) && Moved(s, t, a, now).grants.Keys == s.grants.Keys
  {
    OneRecordAges(s, Moved(s, t, a, now), s.handles[t].id);
  }

  lemma MovedIsSafe(sha: Digest, s: Sys, t: nat, a: HolderStep, now: int)
    requires Safe(sha, s) && t in s.handles && Holds(s.jobs, s.handles[t].id, s.handles[t].leaseToken, now)
    ensures Safe(sha, Moved(s, t, a, now)) && Ages(s, Moved(s, t, a, now))
  {
    MovedRecordOk(sha, s, t, a, now);
    MovedHandlesOk(s, t, a, now);
    MovedAges(s, t, a, now);
    RecordChangeKeepsSafe(sha, s, Moved(s, t, a, now), s.handles[t].id);
  }

  lemma TickKeepsSafe(sha: Digest, s: Sys, now: int)
    requires Safe(sha, s)
    ensures Safe(sha, s.(clock := now)) && Ages(s, s.(clock := now))
  {
    var t := s.(clock := now);
    assert Ages(s, t);
    RecordsStay(sha, s, t);
    CallsStay(sha, s, t);
  }

  lemma TouchedIsSafe(sha: Digest, s: Sys, t: nat, a: HolderStep, now: int)
    requires Safe(sha, s) && t in s.handles
    ensures Safe(sha, Touched(s, t, a, now)) && Ages(s, Touched(s, t, a, now))
  {
    if Holds(s.jobs, s.handles[t].id, s.handles[t].leaseToken, now) {
      MovedIsSafe(sha, s, t, a, now);
    } else {
      TickKeepsSafe(sha, s, EndTime(a, now));
    }
  }

  /** When the first transaction of `Complete` passes, the handle's incarnation is completed or already removed. */
  lemma CompletedIsOver(sha: Digest, s: Sys, t: nat, call: nat, now: int)
    requires Safe(sha, s) && t in s.handles
    requires MarkComplete(s.jobs, s.handles[t].id, s.handles[t].leaseToken, now).0.Ok?
    ensures Over(Touched(s, t, Complete(call), now), s.handles[t])
  {
    var h := s.handles[t];
    assert HandleOk(s, t, h);
    if h.id in s.jobs {
      assert RecordOk(sha, s, h.id, s.jobs[h.id]);
    }
  }

  lemma AddCleanupKeepsSafe(sha: Digest, s: Sys, c: nat, j: Job)
    requires Safe(sha, s) && Over(s, j)
    ensures Safe(sha, BeginCleanup(s, c, j)) && Ages(s, BeginCleanup(s, c, j))
  {
    var t := BeginCleanup(s, c, j);
    forall id | id in s.jobs ensures RecordOk(sha, t, id, s.jobs[id]) {
      assert RecordOk(sha, s, id, s.jobs[id]);
    }
    forall n | n in t.uploads ensures UploadOk(sha, t, n, t.uploads[n]) {
      assert UploadOk(sha, s, n, s.uploads[n]);
    }
    forall d | d in t.cleanups ensures CleanupOk(t, t.cleanups[d]) {
      assert d != c ==> CleanupOk(s, s.cleanups[d]);
    }
    forall k | k in t.seen ensures Over(t, k) {
      assert Over(s, k);
    }
  }

  lemma AgesTwice(s: Sys, mid: Sys, t: Sys)
    requires Ages(s, mid) && mid.grants == t.grants && mid.jobs == t.jobs
    ensures Ages(s, t)
  {
    forall id | id in t.jobs ensures RecordAges(s, t, id) {
      assert RecordAges(s, mid, id);
    }
  }

  lemma HolderKeepsSafe(sha: Digest, s: Sys, t: nat, a: HolderStep, now: int)
    requires Safe(sha, s) && HolderEnabled(s, t, a, now)
    ensures Safe(sha, DoHolder(s, t, a, now)) && Ages(s, DoHolder(s, t, a, now))
  {
    var mid := Touched(s, t, a, now);
    TouchedIsSafe(sha, s, t, a, now);
    if CompletePasses(s.jobs, s.handles[t], a, now) {
      CompletedIsOver(sha, s, t, a.call, now);
      AddCleanupKeepsSafe(sha, mid, a.call, s.handles[t]);
      AgesTwice(s, mid, BeginCleanup(mid, a.call, s.handles[t]));
    }
  }

  // ---- Upkeep ----

  lemma DeleteKeepsSafe(sha: Digest, s: Sys, c: nat)
    requires Safe(sha, s) && UpkeepEnabled(s, DeletePayload(c))
    ensures Safe(sha, ApplyUpkeep(s, DeletePayload(c))) && Ages(s, ApplyUpkeep(s, DeletePayload(c)))
  {
    var t, k := ApplyUpkeep(s, DeletePayload(c)), s.cleanups[c].job.payload;
    assert CleanupOk(s, s.cleanups[c]);
    forall id | id in s.jobs && !s.jobs[id].state.Completed? ensures s.jobs[id].payload != k {
      assert RecordOk(sha, s, id, s.jobs[id]);
    }
    forall n | n in s.uploads ensures s.uploads[n].job.payload != k {
      assert UploadOk(sha, s, n, s.uploads[n]);
    }
    BodyGoneKeepsSafe(sha, s, t, k);
  }

  /** Only the completed record of the cleanup's own incarnation is removed, and its body is gone. */
  lemma RemovedIsClean(sha: Digest, s: Sys, c: nat)
    requires Safe(sha, s) && UpkeepEnabled(s, RemoveRecord(c))
    ensures var j := s.cleanups[c].job;
            Marked(s.jobs, j.id, j.leaseToken) ==>
              s.jobs[j.id].state.Completed? && s.jobs[j.id].payload == j.payload && j.payload !in s.payloads
  {
    var j := s.cleanups[c].job;
    assert CleanupOk(s, s.cleanups[c]);
    if j.id in s.jobs {
      assert RecordOk(sha, s, j.id, s.jobs[j.id]);
    }
  }

  lemma RemoveAges(s: Sys, c: nat)
    requires c in s.cleanups
    ensures Ages(s, DoRemove(s, c))
  {
  }

  lemma RemoveKeepsSafe(sha: Digest, s: Sys, c: nat)
    requires Safe(sha, s) && UpkeepEnabled(s, RemoveRecord(c))
    ensures Safe(sha, DoRemove(s, c)) && Ages(s, DoRemove(s, c))
  {
    RemoveAges(s, c);
    RecordsStay(sha, s, DoRemove(s, c));
    CallsStay(sha, s, DoRemove(s, c));
  }

  lemma ReapedOk(sha: Digest, s: Sys, id: Bytes, j: Job, now: int)
    requires RecordOk(sha, s, id, j)
    ensures RecordOk(sha, s, id, Reaped(j, now)) && Reaped(j, now).payload == j.payload
    ensures j.state.Completed? ==> Reaped(j, now) == j
  {
  }

  lemma ReapedKeepsSafe(sha: Digest, s: Sys, now: int)
    requires Safe(sha, s)
    ensures var t := s.(jobs := ReapAll(s.jobs, now), clock := now); Safe(sha, t) && Ages(s, t)
  {
    var t := s.(jobs := ReapAll(s.jobs, now), clock := now);
    forall id | id in s.jobs ensures RecordOk(sha, t, id, t.jobs[id]) && RecordAges(s, t, id) {
      assert RecordOk(sha, s, id, s.jobs[id]);
      ReapedOk(sha, s, id, s.jobs[id], now);
      assert RecordOk(sha, s, id, t.jobs[id]);
    }
    assert Ages(s, t);
    CallsStay(sha, s, t);
  }

  lemma SeenIsOver(sha: Digest, s: Sys, now: int, id: Bytes)
    requires Safe(sha, s) && id in s.jobs && s.jobs[id].state.Completed?
    ensures Over(s.(jobs := ReapAll(s.jobs, now), clock := now), s.jobs[id])
  {
    assert RecordOk(sha, s, id, s.jobs[id]);
    ReapedOk(sha, s, id, s.jobs[id], now);
  }

  lemma ReapKeepsSafe(sha: Digest, s: Sys, now: int)
    requires Safe(sha, s) && s.clock <= now
    ensures Safe(sha, ApplyUpkeep(s, Reap(now))) && Ages(s, ApplyUpkeep(s, Reap(now)))
  {
    var t := ApplyUpkeep(s, Reap(now));
    var mid := s.(jobs := ReapAll(s.jobs, now), clock := now);
    ReapedKeepsSafe(sha, s, now);
    forall j | j in t.seen ensures Over(mid, j) {
      if j in s.seen {
        OverStays(s, mid, j);
      } else {
        var id :| id in s.jobs && s.jobs[id] == j && j.state.Completed?;
        SeenIsOver(sha, s, now, id);
      }
    }
    SeenKeepsSafe(sha, mid, t);
  }

  lemma SeenKeepsSafe(sha: Digest, s: Sys, t: Sys)
    requires Safe(sha, s) && t == s.(seen := t.seen) && forall j :: j in t.seen ==> Over(s, j)
    ensures Safe(sha, t)
  {
    forall id | id in s.jobs ensures RecordOk(sha, t, id, s.jobs[id]) {
      assert RecordOk(sha, s, id, s.jobs[id]);
    }
    forall n | n in t.uploads ensures UploadOk(sha, t, n, t.uploads[n]) {
      assert UploadOk(sha, s, n, s.uploads[n]);
    }
    forall c | c in t.cleanups ensures CleanupOk(t, t.cleanups[c]) {
      assert CleanupOk(s, s.cleanups[c]);
    }
  }

  lemma RequeueKeepsSafe(sha: Digest, s: Sys, id: Bytes, now: int, stamp: int)
    requires Safe(sha, s) && UpkeepEnabled(s, Requeue(id, now, stamp))
    ensures Safe(sha, DoRequeue(s, id, now, stamp)) && Ages(s, DoRequeue(s, id, now, stamp))
  {
    var t := DoRequeue(s, id, now, stamp);
    assert RecordOk(sha, s, id, s.jobs[id]);
    OneRecordAges(s, t, id);
    RecordChangeKeepsSafe(sha, s, t, id);
  }

  lemma UpkeepKeepsSafe(sha: Digest, s: Sys, a: UpkeepStep)
    requires Safe(sha, s) && UpkeepEnabled(s, a)
    ensures Safe(sha, ApplyUpkeep(s, a)) && Ages(s, ApplyUpkeep(s, a))
  {
    match a {
      case DeletePayload(c) => DeleteKeepsSafe(sha, s, c);
      case RemoveRecord(c) => RemoveKeepsSafe(sha, s, c);
      case Reap(now) => ReapKeepsSafe(sha, s, now);
      case StartCleanup(c, job) => AddCleanupKeepsSafe(sha, s, c, job);
      case Requeue(id, now, stamp) => RequeueKeepsSafe(sha, s, id, now, stamp);
    }
  }

  // ---- Whole runs ----

  lemma StepKeepsSafe(sha: Digest, s: Sys, a: Step, t: Sys)
    requires Safe(sha, s) && Follows(sha, s, a, t)
    ensures Safe(sha, t) && Ages(s, t)
  {
    match a {
      case OfEnqueue(b) => EnqueueKeepsSafe(sha, s, b);
      case OfClaim(id, now, lease, token) => ClaimKeepsSafe(sha, s, id, now, lease, token);
      case OfHolder(h, b, now) => HolderKeepsSafe(sha, s, h, b, now);
      case OfUpkeep(b) => UpkeepKeepsSafe(sha, s, b);
    }
  }

  lemma {:induction false} RunStaysSafe(sha: Digest, states: seq<Sys>, steps: seq<Step>, i: nat)
    requires IsRun(sha, states, steps) && states[0] == EmptyQueue(states[0].clock) && i < |states|
    ensures Safe(sha, states[i])
  {
    if i > 0 {
      RunStaysSafe(sha, states, steps, i - 1);
      assert Follows(sha, states[i - 1], steps[i - 1], states[i]);
      StepKeepsSafe(sha, states[i - 1], steps[i - 1], states[i]);
    }
  }

  lemma UpkeepRemoval(s: Sys, a: UpkeepStep, id: Bytes)
    requires UpkeepEnabled(s, a) && id in s.jobs && id !in ApplyUpkeep(s, a).jobs
    ensures a.RemoveRecord?
    ensures var j := s.cleanups[a.call].job; j.id == id && Marked(s.jobs, j.id, j.leaseToken)
  {
  }

  lemma HolderRemovesNothing(s: Sys, t: nat, a: HolderStep, now: int)
    requires t in s.handles
    ensures s.jobs.Keys <= DoHolder(s, t, a, now).jobs.Keys
  {
    HolderRecords(s, t, a, now);
  }

  lemma EnqueueRemovesNothing(sha: Digest, s: Sys, a: EnqueueStep)
    requires EnqueueEnabled(s, a)
    ensures s.jobs.Keys <= ApplyEnqueue(sha, s, a).jobs.Keys
  {
  }

  lemma OnlyCleanupsRemove(s: Sys, sha: Digest, a: Step, id: Bytes)
    requires Enabled(s, a) && id in s.jobs && id !in Apply(sha, s, a).jobs
    ensures a.OfUpkeep? && a.upkeep.RemoveRecord?
    ensures var j := s.cleanups[a.upkeep.call].job; j.id == id && Marked(s.jobs, j.id, j.leaseToken)
  {
    match a {
      case OfUpkeep(b) => UpkeepRemoval(s, b, id);
      case OfHolder(t, b, now) => HolderRemovesNothing(s, t, b, now);
      case OfEnqueue(b) => EnqueueRemovesNothing(sha, s, b);
      case OfClaim(_, _, _, _) =>
    }
  }

  /** At every point of every run, unfinished jobs have their payloads, and a record that the next step removes is
      completed and its body already gone. */
  lemma PayloadsOutliveJobs(sha: Digest, states: seq<Sys>, steps: seq<Step>, i: nat)
    requires IsRun(sha, states, steps) && states[0] == EmptyQueue(states[0].clock) && i < |states|
    ensures forall id :: id in states[i].jobs && !states[i].jobs[id].state.Completed? ==>
              var j := states[i].jobs[id];
              && j.payload in states[i].payloads
              && sha(states[i].payloads[j.payload]) == j.digest && |states[i].payloads[j.payload]| == j.size
    ensures i < |steps| ==> forall id :: id in states[i].jobs && id !in states[i + 1].jobs ==>
              states[i].jobs[id].state.Completed? && states[i].jobs[id].payload !in states[i].payloads
  {
    RunStaysSafe(sha, states, steps, i);
    forall id | id in states[i].jobs && !states[i].jobs[id].state.Completed?
      ensures PayloadIntact(sha, states[i].payloads, states[i].jobs[id])
    {
      assert RecordOk(sha, states[i], id, states[i].jobs[id]);
    }
    if i < |steps| {
      assert Follows(sha, states[i], steps[i], states[i + 1]);
      forall id | id in states[i].jobs && id !in states[i + 1].jobs
        ensures states[i].jobs[id].state.Completed? && states[i].jobs[id].payload !in states[i].payloads
      {
        OnlyCleanupsRemove(states[i], sha, steps[i], id);
        RemovedIsClean(sha, states[i], steps[i].upkeep.call);
      }
    }
  }
}
