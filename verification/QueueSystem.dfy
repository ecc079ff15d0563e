/** The queue as a concurrent system. Each transaction, payload put and payload delete is one atomic step; calls that
    span several steps leave a record of where they are, so any interleaving, any crash and any failed payload delete
    is a run. Each transaction carries its clock reading; readings do not go back in commit order. */
module QueueSystem {
  import opened ByteStrings
  import opened Results
  import opened Jobs

  /** An enqueue between its upload and its return. */
  datatype Upload = Upload(job: Job, losing: bool)

  /** The end of a `Complete` call, or the reaper's cleanup of one completed record: delete the payload named by the
      caller's copy of the record, then remove the record. */
  datatype Cleanup = Cleanup(job: Job, deleted: bool)

  /** One lease: who got it, from when until when, and when the holder gave it up. */
  datatype Grant = Grant(id: Bytes, payload: PayloadKey, from: int, until: int, ended: Option<int>)

  /** How often one incarnation of a job was claimed and brought back from the dead letters, and its retry limit. */
  datatype Tally = Tally(claims: nat, requeues: nat, limit: int)

  /** The stores and the clock; calls in flight: uploads by their payload serial, claim handles by their token,
      cleanups, and completed records that a reaper has seen; and history: serials and tokens used, payload keys ever
      published with their tallies, and tokens ever granted with their leases. */
  datatype Sys = Sys(
    jobs: Records,
    payloads: Payloads,
    clock: int,
    uploads: map<nat, Upload>,
    handles: map<nat, Job>,
    cleanups: map<nat, Cleanup>,
    seen: set<Job>,
    used: set<nat>,
    tallies: map<PayloadKey, Tally>,
    grants: map<nat, Grant>)

  function TallyOf(s: Sys, j: Job): Tally {
    if j.payload in s.tallies then s.tallies[j.payload] else Tally(0, 0, j.maxRetries)
  }

  // ---- Enqueue ----

  datatype EnqueueStep =
    | UploadPayload(serial: nat, id: Bytes, body: Bytes, maxRetries: int, now: int, delay: int)
    | Publish(serial: nat)
    | FailPublish(serial: nat)
    | DropUpload(serial: nat)

  predicate EnqueueEnabled(s: Sys, a: EnqueueStep) {
    match a
    case UploadPayload(n, _, _, _, _, _) => n !in s.used
    case Publish(n) => n in s.uploads && !s.uploads[n].losing
    case FailPublish(n) => n in s.uploads && !s.uploads[n].losing
    case DropUpload(n) => n in s.uploads && s.uploads[n].losing
  }

  function DoUpload(sha: Digest, s: Sys, n: nat, id: Bytes, body: Bytes, maxRetries: int, now: int, delay: int): Sys {
    var key := PayloadKey(id, n);
    s.(payloads := s.payloads[key := body],
       used := s.used + {n},
       uploads := s.uploads[n := Upload(NewJob(id, key, |body|, sha(body), maxRetries, now, delay), false)])
  }

  /** The publishing transaction: it creates the record, or finds one and leaves the upload to be deleted. */
  function DoPublish(s: Sys, n: nat): Sys
    requires n in s.uploads
  {
    var j := s.uploads[n].job;
    if j.id in s.jobs then s.(uploads := s.uploads[n := Upload(j, true)])
    else
      s.(jobs := s.jobs[j.id := j],
         uploads := s.uploads - {n},
         tallies := s.tallies[j.payload := Tally(0, 0, j.maxRetries)])
  }

  function ApplyEnqueue(sha: Digest, s: Sys, a: EnqueueStep): Sys
    requires EnqueueEnabled(s, a)
  {
    match a
    case UploadPayload(n, id, body, maxRetries, now, delay) => DoUpload(sha, s, n, id, body, maxRetries, now, delay)
    case Publish(n) => DoPublish(s, n)
    case FailPublish(n) => s.(uploads := s.uploads[n := s.uploads[n].(losing := true)])
    case DropUpload(n) => s.(payloads := s.payloads - {s.uploads[n].job.payload}, uploads := s.uploads - {n})
  }

  // ---- Claim and the holder's transitions ----

  ghost predicate ClaimEnabled(s: Sys, id: Bytes, now: int, token: nat) {
    s.clock <= now && token !in s.used && IsFirst(s.jobs, now, id)
  }

  function DoClaim(s: Sys, id: Bytes, now: int, lease: int, token: nat): Sys
    requires id in s.jobs
  {
    var j := Leased(s.jobs[id], now, lease, token);
    var t := TallyOf(s, j);
    s.(jobs := s.jobs[id := j],
       clock := now,
       used := s.used + {token},
       handles := s.handles[token := j],
       grants := s.grants[token := Grant(id, j.payload, now, now + lease, None)],
       tallies := s.tallies[j.payload := t.(claims := t.claims + 1)])
  }

  /** `now` is read when the transaction starts, `later` inside the transition. */
  datatype HolderStep =
    | Renew(later: int, d: int)
    | Retry(later: int, delay: int)
    | Bury
    | Complete(call: nat)

  /** What the holder of `h` makes of its record, when the record is still its own. */
  function Transitioned(j: Job, a: HolderStep, now: int): Job {
    match a
    case Renew(later, d) => Renewed(j, now, later + d)
    case Retry(later, delay) => Retried(j, now, later + delay)
    case Bury => Buried(j, now)
    case Complete(_) => Finished(j, now)
  }

  function EndTime(a: HolderStep, now: int): int {
    match a
    case Renew(later, _) => later
    case Retry(later, _) => later
    case _ => now
  }

  function GrantAfter(g: Grant, a: HolderStep, now: int): Grant {
    if a.Renew? then g.(until := a.later + a.d) else g.(ended := Some(EndTime(a, now)))
  }

  predicate HolderEnabled(s: Sys, t: nat, a: HolderStep, now: int) {
    && t in s.handles && s.clock <= now <= EndTime(a, now)
    && (a.Complete? ==> a.call !in s.cleanups)
  }

  /** The transition of a record that is still the holder's own. */
  function Moved(s: Sys, t: nat, a: HolderStep, now: int): Sys
    requires t in s.handles && s.handles[t].id in s.jobs
  {
    var h := s.handles[t];
    s.(jobs := s.jobs[h.id := Transitioned(s.jobs[h.id], a, now)],
       clock := EndTime(a, now),
       grants := if t in s.grants then s.grants[t := GrantAfter(s.grants[t], a, now)] else s.grants,
       handles := if a.Renew? then s.handles[t := h.(leaseUntil := Some(a.later + a.d))] else s.handles)
  }

  function Touched(s: Sys, t: nat, a: HolderStep, now: int): Sys
    requires t in s.handles
  {
    if Holds(s.jobs, s.handles[t].id, s.handles[t].leaseToken, now)
    then Moved(s, t, a, now)
    else s.(clock := EndTime(a, now))
  }

  predicate CompletePasses(jobs: Records, h: Job, a: HolderStep, now: int) {
    a.Complete? && MarkComplete(jobs, h.id, h.leaseToken, now).0.Ok?
  }

  function BeginCleanup(s: Sys, call: nat, j: Job): Sys {
    s.(cleanups := s.cleanups[call := Cleanup(j, false)])
  }

  /** A completing call whose first transaction passes goes on to its cleanup. */
  function DoHolder(s: Sys, t: nat, a: HolderStep, now: int): Sys
    requires t in s.handles
  {
    if CompletePasses(s.jobs, s.handles[t], a, now) then BeginCleanup(Touched(s, t, a, now), a.call, s.handles[t])
    else Touched(s, t, a, now)
  }

  function RecordsAfter(jobs: Records, h: Job, a: HolderStep, now: int): Records {
    if Holds(jobs, h.id, h.leaseToken, now) then jobs[h.id := Transitioned(jobs[h.id], a, now)] else jobs
  }

  lemma TouchedRecords(s: Sys, t: nat, a: HolderStep, now: int)
    requires t in s.handles
    ensures Touched(s, t, a, now).jobs == RecordsAfter(s.jobs, s.handles[t], a, now)
  {
    if Holds(s.jobs, s.handles[t].id, s.handles[t].leaseToken, now) {
      assert Touched(s, t, a, now) == Moved(s, t, a, now);
    } else {
      assert Touched(s, t, a, now) == s.(clock := EndTime(a, now));
    }
  }

  predicate SameButRecords(s: Sys, u: Sys) {
    && u.tallies == s.tallies
    && u.payloads == s.payloads && u.uploads == s.uploads && u.used == s.used && u.seen == s.seen
  }

  lemma TouchedFrame(s: Sys, t: nat, a: HolderStep, now: int)
    requires t in s.handles
    ensures SameButRecords(s, Touched(s, t, a, now)) && Touched(s, t, a, now).clock == EndTime(a, now)
  {
    if Holds(s.jobs, s.handles[t].id, s.handles[t].leaseToken, now) {
      assert Touched(s, t, a, now) == Moved(s, t, a, now);
    } else {
      assert Touched(s, t, a, now) == s.(clock := EndTime(a, now));
    }
  }

  lemma HolderRecords(s: Sys, t: nat, a: HolderStep, now: int)
    requires t in s.handles
    ensures DoHolder(s, t, a, now).jobs == RecordsAfter(s.jobs, s.handles[t], a, now)
    ensures SameButRecords(s, DoHolder(s, t, a, now))
  {
    TouchedRecords(s, t, a, now);
    TouchedFrame(s, t, a, now);
  }

  /** Only a publishing transaction touches records or history. */
  lemma EnqueueFrame(sha: Digest, s: Sys, a: EnqueueStep)
    requires EnqueueEnabled(s, a) && !a.Publish?
    ensures var t := ApplyEnqueue(sha, s, a);
            t.jobs == s.jobs && t.tallies == s.tallies && t.grants == s.grants && t.clock == s.clock
  {
  }

  /** The records a completing call leaves are those of `Complete`'s first transaction. */
  lemma CompleteStepMarks(s: Sys, t: nat, call: nat, now: int)
    requires t in s.handles
    ensures var h := s.handles[t];
            DoHolder(s, t, Complete(call), now).jobs == MarkComplete(s.jobs, h.id, h.leaseToken, now).1
  {
    HolderRecords(s, t, Complete(call), now);
  }

  /** What a holder's step makes of the records: what the handle's method makes of them, when it is accepted. */
  lemma HolderStepActs(s: Sys, t: nat, a: HolderStep, now: int)
    requires t in s.handles
    ensures var h, after := s.handles[t], DoHolder(s, t, a, now).jobs;
            if Holds(s.jobs, h.id, h.leaseToken, now) then
              var j := s.jobs[h.id];
              after == s.jobs[h.id :=
                match a
                case Renew(later, d) => j.(leaseUntil := Some(later + d), updatedAt := now)
                case Retry(later, delay) =>
                  if j.attempts < j.maxRetries
                  then j.(state := Pending, availableAt := later + delay, leaseUntil := None, leaseToken := None,
                          updatedAt := now)
                  else j.(state := Dead, leaseUntil := None, leaseToken := None, updatedAt := now)
                case Bury => j.(state := Dead, leaseUntil := None, leaseToken := None, updatedAt := now)
                case Complete(_) => j.(state := Completed, leaseUntil := None, updatedAt := now)]
            else after == s.jobs
  {
    HolderRecords(s, t, a, now);
  }

  // ---- Cleanup, reaping, requeueing ----

  datatype UpkeepStep =
    | DeletePayload(call: nat)
    | RemoveRecord(call: nat)
    | Reap(now: int)
    | StartCleanup(call: nat, job: Job)
    | Requeue(id: Bytes, now: int, stamp: int)

  predicate UpkeepEnabled(s: Sys, a: UpkeepStep) {
    match a
    case DeletePayload(c) => c in s.cleanups && !s.cleanups[c].deleted
    case RemoveRecord(c) => c in s.cleanups && s.cleanups[c].deleted
    case Reap(now) => s.clock <= now
    case StartCleanup(c, job) => c !in s.cleanups && job in s.seen
    case Requeue(id, now, _) => s.clock <= now && id in s.jobs && s.jobs[id].state.Dead?
  }

  function DoRemove(s: Sys, c: nat): Sys
    requires c in s.cleanups
  {
    var j := s.cleanups[c].job;
    s.(jobs := RemoveCompleted(s.jobs, j.id, j.leaseToken), cleanups := s.cleanups - {c})
  }

  /** `stamp` is the time `RequeueDead` read before its transaction began. */
  function DoRequeue(s: Sys, id: Bytes, now: int, stamp: int): Sys
    requires id in s.jobs
  {
    var t := TallyOf(s, s.jobs[id]);
    s.(jobs := s.jobs[id := Requeued(s.jobs[id], stamp)],
       clock := now,
       tallies := s.tallies[s.jobs[id].payload := t.(requeues := t.requeues + 1)])
  }

  function ApplyUpkeep(s: Sys, a: UpkeepStep): Sys
    requires UpkeepEnabled(s, a)
  {
    match a
    case DeletePayload(c) =>
      s.(payloads := s.payloads - {s.cleanups[c].job.payload},
         cleanups := s.cleanups[c := s.cleanups[c].(deleted := true)])
    case RemoveRecord(c) => DoRemove(s, c)
    case Reap(now) =>
      s.(jobs := ReapAll(s.jobs, now),
         clock := now,
         seen := s.seen + set id | id in s.jobs && s.jobs[id].state.Completed? :: s.jobs[id])
    case StartCleanup(c, job) => BeginCleanup(s, c, job)
    case Requeue(id, now, stamp) => DoRequeue(s, id, now, stamp)
  }

  // ---- Runs ----

  datatype Step =
    | OfEnqueue(enqueue: EnqueueStep)
    | OfClaim(id: Bytes, now: int, lease: int, token: nat)
    | OfHolder(token: nat, act: HolderStep, now: int)
    | OfUpkeep(upkeep: UpkeepStep)

  ghost predicate Enabled(s: Sys, a: Step) {
    match a
    case OfEnqueue(b) => EnqueueEnabled(s, b)
    case OfClaim(id, now, _, token) => ClaimEnabled(s, id, now, token)
    case OfHolder(t, b, now) => HolderEnabled(s, t, b, now)
    case OfUpkeep(b) => UpkeepEnabled(s, b)
  }

  ghost function Apply(sha: Digest, s: Sys, a: Step): Sys
    requires Enabled(s, a)
  {
    match a
    case OfEnqueue(b) => ApplyEnqueue(sha, s, b)
    case OfClaim(id, now, lease, token) => DoClaim(s, id, now, lease, token)
    case OfHolder(t, b, now) => DoHolder(s, t, b, now)
    case OfUpkeep(b) => ApplyUpkeep(s, b)
  }

  ghost predicate Follows(sha: Digest, s: Sys, a: Step, t: Sys) {
    Enabled(s, a) && t == Apply(sha, s, a)
  }

  /** `states` is the history of a run that performs `steps`. */
  ghost predicate IsRun(sha: Digest, states: seq<Sys>, steps: seq<Step>) {
    && |states| == |steps| + 1
    && forall i {:trigger steps[i]} :: 0 <= i < |steps| ==> Follows(sha, states[i], steps[i], states[i + 1])
  }

  /** An empty queue. */
  function EmptyQueue(clock: int): Sys {
    Sys(map[], map[], clock, map[], map[], map[], {}, {}, map[], map[])
  }
}
