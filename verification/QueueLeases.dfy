/** Leases, deliveries and incarnations over whole runs of the queue. */
module QueueLeases {
  import opened ByteStrings
  import opened Results
  import opened Jobs
  import opened QueueSystem
  import opened QueuePayloads

  // ---- Stale holders ----

  /** A holder's step changes at most its own record, and that one only while the record still carries the handle's
      token, belongs to the incarnation the handle was issued for, and its lease is not over. */
  lemma StaleHandleIsInert(sha: Digest, s: Sys, t: nat, a: HolderStep, now: int)
    requires Safe(sha, s) && HolderEnabled(s, t, a, now)
    ensures var h, after := s.handles[t], DoHolder(s, t, a, now).jobs;
            && after.Keys == s.jobs.Keys
            && (forall id :: id in s.jobs && id != h.id ==> after[id] == s.jobs[id])
            && (after != s.jobs ==>
                  h.id in s.jobs && s.jobs[h.id].state.Claimed? && s.jobs[h.id].leaseToken == Some(t)
                  && s.jobs[h.id].payload == h.payload && s.jobs[h.id].leaseUntil.Some?
                      && s.jobs[h.id].leaseUntil.value > now)
  {
    HolderRecords(s, t, a, now);
    assert HandleOk(s, t, s.handles[t]);
    if s.handles[t].id in s.jobs {
      assert RecordOk(sha, s, s.handles[t].id, s.jobs[s.handles[t].id]);
    }
  }

  /** A cleanup, whoever started it, removes at most the completed record of the incarnation it was started for. */
  lemma StaleCleanupIsInert(sha: Digest, s: Sys, c: nat)
    requires Safe(sha, s) && UpkeepEnabled(s, RemoveRecord(c))
    ensures var j, after := s.cleanups[c].job, DoRemove(s, c).jobs;
            && (forall id :: id in s.jobs && id != j.id ==> id in after && after[id] == s.jobs[id])
            && (after != s.jobs ==>
                      j.id in s.jobs && s.jobs[j.id].state.Completed? && s.jobs[j.id].payload == j.payload)
  {
    RemovedIsClean(sha, s, c);
  }

  /** Of all handles ever issued for a job, at most one is accepted. */
  lemma OneHolder(sha: Digest, s: Sys, t: nat, u: nat, now: int)
    requires Safe(sha, s) && t in s.handles && u in s.handles && s.handles[t].id == s.handles[u].id
    requires Holds(s.jobs, s.handles[t].id, s.handles[t].leaseToken, now)
    requires Holds(s.jobs, s.handles[u].id, s.handles[u].leaseToken, now)
    ensures t == u
  {
    assert HandleOk(s, t, s.handles[t]) && HandleOk(s, u, s.handles[u]);
  }

  // ---- Lease windows ----

  function End(g: Grant): int {
    if g.ended.Some? then g.ended.value else g.until
  }

  type Grants = map<nat, Grant>

  /** The job is claimed under this token. */
  ghost predicate Current(jobs: Records, grants: Grants, t: nat) {
    && t in grants && grants[t].id in jobs
    && jobs[grants[t].id].state.Claimed? && jobs[grants[t].id].leaseToken == Some(t)
  }

  predicate Disjoint(g: Grant, h: Grant) {
    End(g) <= h.from || End(h) <= g.from
  }

  /** The windows of all claims of one job are disjoint. */
  ghost predicate WindowsDisjoint(grants: Grants) {
    forall t, u :: t in grants && u in grants && t != u && grants[t].id == grants[u].id ==>
        Disjoint(grants[t], grants[u])
  }

  /** A running lease is on record as such and began after all other leases of its job were over. */
  ghost predicate CurrentOk(jobs: Records, grants: Grants, clock: int, t: nat)
    requires Current(jobs, grants, t)
  {
    var g := grants[t];
    && g.ended.None? && g.from <= clock && jobs[g.id].leaseUntil == Some(g.until)
    && forall u :: u in grants && u != t && grants[u].id == g.id ==> End(grants[u]) <= g.from
  }

  ghost predicate LeasesOk(jobs: Records, grants: Grants, clock: int) {
    && WindowsDisjoint(grants)
    && (forall t :: t in grants && !Current(jobs, grants, t) ==> End(grants[t]) <= clock)
    && (forall t :: Current(jobs, grants, t) ==> CurrentOk(jobs, grants, clock, t))
  }

  /** Grants unchanged: leases may only end, and those that end are over. */
  lemma LeasesStay(jobs: Records, jobs': Records, grants: Grants, clock: int, clock': int)
    requires LeasesOk(jobs, grants, clock) && clock <= clock'
    requires forall id :: id in jobs' && jobs'[id].state.Claimed? ==> id in jobs && jobs'[id] == jobs[id]
    requires forall id :: id in jobs && jobs[id].state.Claimed? && (id !in jobs' || !jobs'[id].state.Claimed?) ==>
               jobs[id].leaseUntil.Some? && jobs[id].leaseUntil.value <= clock'
    ensures LeasesOk(jobs', grants, clock')
  {
    forall t | Current(jobs', grants, t) ensures CurrentOk(jobs', grants, clock', t) {
      assert CurrentOk(jobs, grants, clock, t);
    }
    forall t | t in grants && !Current(jobs', grants, t) ensures End(grants[t]) <= clock' {
      assert Current(jobs, grants, t) ==> CurrentOk(jobs, grants, clock, t);
    }
  }

  /** A claim of an unclaimed job. */
  lemma LeaseAdded(jobs: Records, grants: Grants, clock: int, id: Bytes, j: Job, token: nat, g: Grant, now: int)
    requires LeasesOk(jobs, grants, clock) && clock <= now && token !in grants
    requires id in jobs && !jobs[id].state.Claimed?
    requires j.state.Claimed? && j.leaseToken == Some(token) && j.leaseUntil == Some(g.until)
    requires g.id == id && g.from == now && g.ended.None?
    ensures LeasesOk(jobs[id := j], grants[token := g], now)
  {
    var jobs', grants' := jobs[id := j], grants[token := g];
    forall k | k in grants && grants[k].id == id ensures End(grants[k]) <= now {
      assert !Current(jobs, grants, k);
    }
    forall k | k in grants' && k != token ensures Current(jobs', grants', k) <==> Current(jobs, grants, k) {
    }
    forall k | Current(jobs', grants', k) ensures CurrentOk(jobs', grants', now, k) {
      if k != token {
        assert CurrentOk(jobs, grants, clock, k);
      }
    }
  }

  /** A grant that moves its end stays apart from the others of its job, which ended before it began. */
  lemma MovedStaysDisjoint(grants: Grants, t: nat, g: Grant)
    requires WindowsDisjoint(grants) && t in grants && g.id == grants[t].id && g.from == grants[t].from
    requires forall u :: u in grants && u != t && grants[u].id == g.id ==> End(grants[u]) <= g.from
    ensures WindowsDisjoint(grants[t := g])
  {
    var grants' := grants[t := g];
    forall k, l | k in grants' && l in grants' && k != l && grants'[k].id == grants'[l].id
      ensures Disjoint(grants'[k], grants'[l])
    {
      assert Disjoint(grants[k], grants[l]);
    }
  }

  /** The holder of a running lease extends it or gives it up. */
  lemma LeaseMoved(jobs: Records, grants: Grants, clock: int, t: nat, j: Job, g: Grant, now: int)
    requires LeasesOk(jobs, grants, clock) && clock <= now && Current(jobs, grants, t)
    requires g.id == grants[t].id && g.from == grants[t].from
    requires (j.state.Claimed? && j.leaseToken == Some(t) && g.ended.None? && j.leaseUntil == Some(g.until))
             || (!j.state.Claimed? && g.ended == Some(now))
    ensures LeasesOk(jobs[g.id := j], grants[t := g], now)
  {
    var jobs', grants' := jobs[g.id := j], grants[t := g];
    assert CurrentOk(jobs, grants, clock, t);
    MovedStaysDisjoint(grants, t, g);
    forall k | k != t ensures Current(jobs', grants', k) <==> Current(jobs, grants, k) {
    }
    forall k | Current(jobs', grants', k) ensures CurrentOk(jobs', grants', now, k) {
      assert CurrentOk(jobs, grants, clock, k);
    }
  }

  lemma ClaimKeepsLeases(sha: Digest, s: Sys, id: Bytes, now: int, lease: int, token: nat)
    requires Safe(sha, s) && LeasesOk(s.jobs, s.grants, s.clock) && ClaimEnabled(s, id, now, token)
    ensures var t := DoClaim(s, id, now, lease, token); LeasesOk(t.jobs, t.grants, t.clock)
  {
    assert token !in s.grants;
    var j, g := Leased(s.jobs[id], now, lease, token), Grant(id, s.jobs[id].payload, now, now + lease, None);
    LeaseAdded(s.jobs, s.grants, s.clock, id, j, token, g, now);
  }

  /** What a transition makes of a running lease: extended under the same token, or given up. */
  lemma TransitionedLease(j: Job, g: Grant, t: nat, a: HolderStep, now: int)
    requires j.state.Claimed? && j.leaseToken == Some(t) && g.ended.None?
    ensures var k, h := Transitioned(j, a, now), GrantAfter(g, a, now);
            && h.id == g.id && h.from == g.from
            && ((k.state.Claimed? && k.leaseToken == Some(t) && h.ended.None? && k.leaseUntil == Some(h.until))
                || (!k.state.Claimed? && h.ended == Some(EndTime(a, now))))
  {
  }

  lemma MovedKeepsLeases(sha: Digest, s: Sys, t: nat, a: HolderStep, now: int)
    requires Safe(sha, s) && LeasesOk(s.jobs, s.grants, s.clock) && HolderEnabled(s, t, a, now)
    requires Holds(s.jobs, s.handles[t].id, s.handles[t].leaseToken, now)
    ensures var u := Moved(s, t, a, now); LeasesOk(u.jobs, u.grants, u.clock)
  {
    var h := s.handles[t];
    assert HandleOk(s, t, h);
    var j, g := s.jobs[h.id], s.grants[t];
    assert Current(s.jobs, s.grants, t) && CurrentOk(s.jobs, s.grants, s.clock, t);
    TransitionedLease(j, g, t, a, now);
    LeaseMoved(s.jobs, s.grants, s.clock, t, Transitioned(j, a, now), GrantAfter(g, a, now), EndTime(a, now));
  }

  lemma CleanupLeaseState(v: Sys, call: nat, j: Job)
    ensures var u := BeginCleanup(v, call, j); u.jobs == v.jobs && u.grants == v.grants && u.clock == v.clock
  {
  }

  lemma HolderLeaseState(s: Sys, t: nat, a: HolderStep, now: int)
    requires t in s.handles
    ensures var u, v := DoHolder(s, t, a, now), Touched(s, t, a, now);
            u.jobs == v.jobs && u.grants == v.grants && u.clock == v.clock
  {
    if CompletePasses(s.jobs, s.handles[t], a, now) {
      CleanupLeaseState(Touched(s, t, a, now), a.call, s.handles[t]);
    }
  }

  lemma HolderKeepsLeases(sha: Digest, s: Sys, t: nat, a: HolderStep, now: int)
    requires Safe(sha, s) && LeasesOk(s.jobs, s.grants, s.clock) && HolderEnabled(s, t, a, now)
    ensures var u := DoHolder(s, t, a, now); LeasesOk(u.jobs, u.grants, u.clock)
  {
    HolderLeaseState(s, t, a, now);
    if Holds(s.jobs, s.handles[t].id, s.handles[t].leaseToken, now) {
      MovedKeepsLeases(sha, s, t, a, now);
    } else {
      LeasesStay(s.jobs, s.jobs, s.grants, s.clock, EndTime(a, now));
    }
  }

  lemma ReapedLeases(jobs: Records, now: int)
    ensures forall id :: id in jobs && ReapAll(jobs, now)[id].state.Claimed? ==> ReapAll(jobs, now)[id] == jobs[id]
    ensures forall id :: id in jobs && jobs[id].state.Claimed? && !ReapAll(jobs, now)[id].state.Claimed? ==>
              Expired(jobs[id], now)
  {
  }

  lemma ReapKeepsLeases(s: Sys, now: int)
    requires LeasesOk(s.jobs, s.grants, s.clock) && s.clock <= now
    ensures LeasesOk(ReapAll(s.jobs, now), s.grants, now)
  {
    ReapedLeases(s.jobs, now);
    LeasesStay(s.jobs, ReapAll(s.jobs, now), s.grants, s.clock, now);
  }

  lemma RemoveKeepsLeases(s: Sys, c: nat)
    requires LeasesOk(s.jobs, s.grants, s.clock) && c in s.cleanups
    ensures var t := DoRemove(s, c); LeasesOk(t.jobs, t.grants, t.clock)
  {
    LeasesStay(s.jobs, DoRemove(s, c).jobs, s.grants, s.clock, s.clock);
  }

  lemma RequeueKeepsLeases(s: Sys, id: Bytes, now: int, stamp: int)
    requires LeasesOk(s.jobs, s.grants, s.clock) && UpkeepEnabled(s, Requeue(id, now, stamp))
    ensures var t := DoRequeue(s, id, now, stamp); LeasesOk(t.jobs, t.grants, t.clock)
  {
    LeasesStay(s.jobs, s.jobs[id := Requeued(s.jobs[id], stamp)], s.grants, s.clock, now);
  }

  lemma UpkeepKeepsLeases(sha: Digest, s: Sys, a: UpkeepStep)
    requires Safe(sha, s) && LeasesOk(s.jobs, s.grants, s.clock) && UpkeepEnabled(s, a)
    ensures var t := ApplyUpkeep(s, a); LeasesOk(t.jobs, t.grants, t.clock)
  {
    match a {
      case Reap(now) => ReapKeepsLeases(s, now);
      case RemoveRecord(c) => RemoveKeepsLeases(s, c);
      case Requeue(id, now, stamp) => RequeueKeepsLeases(s, id, now, stamp);
      case _ =>
    }
  }

  lemma PublishKeepsLeases(s: Sys, n: nat)
    requires LeasesOk(s.jobs, s.grants, s.clock) && n in s.uploads && s.uploads[n].job.state.Pending?
    ensures var t := DoPublish(s, n); LeasesOk(t.jobs, t.grants, t.clock)
  {
    var j := s.uploads[n].job;
    if j.id !in s.jobs {
      LeasesStay(s.jobs, s.jobs[j.id := j], s.grants, s.clock, s.clock);
    }
  }

  lemma EnqueueKeepsLeases(sha: Digest, s: Sys, a: EnqueueStep)
    requires Safe(sha, s) && LeasesOk(s.jobs, s.grants, s.clock) && EnqueueEnabled(s, a)
    ensures var t := ApplyEnqueue(sha, s, a); LeasesOk(t.jobs, t.grants, t.clock)
  {
    if a.Publish? {
      assert UploadOk(sha, s, a.serial, s.uploads[a.serial]);
      PublishKeepsLeases(s, a.serial);
    } else {
      EnqueueFrame(sha, s, a);
    }
  }

  lemma StepKeepsLeases(sha: Digest, s: Sys, a: Step, t: Sys)
    requires Safe(sha, s) && LeasesOk(s.jobs, s.grants, s.clock) && Follows(sha, s, a, t)
    ensures LeasesOk(t.jobs, t.grants, t.clock)
  {
    match a {
      case OfEnqueue(b) => EnqueueKeepsLeases(sha, s, b);
      case OfClaim(id, now, lease, token) => ClaimKeepsLeases(sha, s, id, now, lease, token);
      case OfHolder(h, b, now) => HolderKeepsLeases(sha, s, h, b, now);
      case OfUpkeep(b) => UpkeepKeepsLeases(sha, s, b);
    }
  }

  // ---- Deliveries ----

  function AtLeastOne(limit: int): nat {
    if limit < 1 then 1 else limit
  }

  /** How far a record's attempt count may be, and how its incarnation's claims add up. */
  ghost predicate DeliveryOk(s: Sys, j: Job) {
    var most := AtLeastOne(j.maxRetries);
    && (j.state.Pending? ==> j.attempts < most)
    && (j.state.Claimed? ==> 1 <= j.attempts)
    && j.attempts <= most
    && j.payload in s.tallies && s.tallies[j.payload].limit == j.maxRetries
    && s.tallies[j.payload].claims <= most * s.tallies[j.payload].requeues + j.attempts
  }

  ghost predicate TallyOk(y: Tally) {
    Within(y.claims, y.limit, y.requeues)
  }

  /** One round of attempts, and one more for each requeue. */
  ghost predicate Within(claims: nat, limit: int, requeues: nat) {
    claims <= AtLeastOne(limit) * (1 + requeues)
  }

  ghost predicate DeliveriesOk(s: Sys) {
    && (forall id :: id in s.jobs ==> DeliveryOk(s, s.jobs[id]))
    && (forall k :: k in s.tallies ==> TallyOk(s.tallies[k]))
  }

  lemma MoreRequeues(most: nat, requeues: nat)
    ensures most * (1 + requeues) == most * requeues + most
  {
  }

  lemma DeliveryIsTallied(s: Sys, j: Job)
    requires DeliveryOk(s, j)
    ensures TallyOk(s.tallies[j.payload])
  {
    MoreRequeues(AtLeastOne(j.maxRetries), s.tallies[j.payload].requeues);
  }

  /** Tallies unchanged: each record is unchanged, gone, or changed soundly. */
  lemma DeliveriesStay(s: Sys, t: Sys)
    requires DeliveriesOk(s) && t.tallies == s.tallies
    requires forall id :: id in t.jobs ==> (id in s.jobs && t.jobs[id] == s.jobs[id]) || DeliveryOk(s, t.jobs[id])
    ensures DeliveriesOk(t)
  {
    forall id | id in t.jobs ensures DeliveryOk(t, t.jobs[id]) {
      if id in s.jobs && t.jobs[id] == s.jobs[id] {
        assert DeliveryOk(s, s.jobs[id]);
      } else {
        assert DeliveryOk(s, t.jobs[id]);
      }
    }
  }

  lemma TallyChangeKeepsDeliveries(sha: Digest, s: Sys, t: Sys, id: Bytes)
    requires Safe(sha, s) && DeliveriesOk(s) && id in t.jobs && t.jobs == s.jobs[id := t.jobs[id]]
    requires t.jobs[id].payload.id == id && t.jobs[id].payload in t.tallies
    requires t.tallies == s.tallies[t.jobs[id].payload := t.tallies[t.jobs[id].payload]]
    requires DeliveryOk(t, t.jobs[id])
    ensures DeliveriesOk(t)
  {
    DeliveryIsTallied(t, t.jobs[id]);
    forall i | i in t.jobs && i != id ensures DeliveryOk(t, t.jobs[i]) {
      assert RecordOk(sha, s, i, s.jobs[i]) && DeliveryOk(s, s.jobs[i]);
    }
  }

  lemma PublishKeepsDeliveries(sha: Digest, s: Sys, n: nat)
    requires Safe(sha, s) && DeliveriesOk(s) && EnqueueEnabled(s, Publish(n))
    ensures DeliveriesOk(DoPublish(s, n))
  {
    var t, j := DoPublish(s, n), s.uploads[n].job;
    assert UploadOk(sha, s, n, s.uploads[n]);
    if j.id in s.jobs {
      DeliveriesStay(s, t);
    } else {
      TallyChangeKeepsDeliveries(sha, s, t, j.id);
    }
  }

  lemma ClaimKeepsDeliveries(sha: Digest, s: Sys, id: Bytes, now: int, lease: int, token: nat)
    requires Safe(sha, s) && DeliveriesOk(s) && ClaimEnabled(s, id, now, token)
    ensures DeliveriesOk(DoClaim(s, id, now, lease, token))
  {
    assert RecordOk(sha, s, id, s.jobs[id]) && DeliveryOk(s, s.jobs[id]);
    TallyChangeKeepsDeliveries(sha, s, DoClaim(s, id, now, lease, token), id);
  }

  lemma RequeuedCount(most: nat, y: Tally, attempts: nat)
    requires y.claims <= most * y.requeues + attempts && attempts <= most
    ensures y.claims <= most * (y.requeues + 1) + 0
  {
    MoreRequeues(most, y.requeues);
  }

  /** A requeued record starts over, with one more requeue to its incarnation's account. */
  lemma RequeuedDelivery(s: Sys, id: Bytes, now: int, stamp: int)
    requires id in s.jobs && DeliveryOk(s, s.jobs[id])
    ensures DeliveryOk(DoRequeue(s, id, now, stamp), Requeued(s.jobs[id], stamp))
  {
    var j := s.jobs[id];
    RequeuedCount(AtLeastOne(j.maxRetries), s.tallies[j.payload], j.attempts);
  }

  lemma RequeueKeepsDeliveries(sha: Digest, s: Sys, id: Bytes, now: int, stamp: int)
    requires Safe(sha, s) && DeliveriesOk(s) && UpkeepEnabled(s, Requeue(id, now, stamp))
    ensures DeliveriesOk(DoRequeue(s, id, now, stamp))
  {
    assert RecordOk(sha, s, id, s.jobs[id]);
    RequeuedDelivery(s, id, now, stamp);
    TallyChangeKeepsDeliveries(sha, s, DoRequeue(s, id, now, stamp), id);
  }

  lemma HolderKeepsDeliveries(sha: Digest, s: Sys, t: nat, a: HolderStep, now: int)
    requires Safe(sha, s) && DeliveriesOk(s) && HolderEnabled(s, t, a, now)
    ensures DeliveriesOk(DoHolder(s, t, a, now))
  {
    var h := s.handles[t];
    HolderRecords(s, t, a, now);
    if h.id in s.jobs {
      assert DeliveryOk(s, s.jobs[h.id]);
      TransitionedDelivery(s, s.jobs[h.id], a, now);
    }
    DeliveriesStay(s, DoHolder(s, t, a, now));
  }

  lemma TransitionedDelivery(s: Sys, j: Job, a: HolderStep, now: int)
    requires DeliveryOk(s, j)
    ensures j.state.Claimed? ==> DeliveryOk(s, Transitioned(j, a, now))
  {
  }

  lemma ReapKeepsDeliveries(s: Sys, now: int)
    requires DeliveriesOk(s) && s.clock <= now
    ensures DeliveriesOk(ApplyUpkeep(s, Reap(now)))
  {
    var t := ApplyUpkeep(s, Reap(now));
    forall id | id in t.jobs ensures DeliveryOk(s, t.jobs[id]) {
      assert DeliveryOk(s, s.jobs[id]);
    }
    DeliveriesStay(s, t);
  }

  lemma EnqueueKeepsDeliveries(sha: Digest, s: Sys, a: EnqueueStep)
    requires Safe(sha, s) && DeliveriesOk(s) && EnqueueEnabled(s, a)
    ensures DeliveriesOk(ApplyEnqueue(sha, s, a))
  {
    if a.Publish? {
      PublishKeepsDeliveries(sha, s, a.serial);
    } else {
      EnqueueFrame(sha, s, a);
      DeliveriesStay(s, ApplyEnqueue(sha, s, a));
    }
  }

  lemma UpkeepKeepsDeliveries(sha: Digest, s: Sys, a: UpkeepStep)
    requires Safe(sha, s) && DeliveriesOk(s) && UpkeepEnabled(s, a)
    ensures DeliveriesOk(ApplyUpkeep(s, a))
  {
    match a {
      case Reap(now) => ReapKeepsDeliveries(s, now);
      case Requeue(id, now, stamp) => RequeueKeepsDeliveries(sha, s, id, now, stamp);
      case _ => DeliveriesStay(s, ApplyUpkeep(s, a));
    }
  }

  lemma StepKeepsDeliveries(sha: Digest, s: Sys, a: Step, t: Sys)
    requires Safe(sha, s) && DeliveriesOk(s) && Follows(sha, s, a, t)
    ensures DeliveriesOk(t)
  {
    match a {
      case OfEnqueue(b) => EnqueueKeepsDeliveries(sha, s, b);
      case OfClaim(id, now, lease, token) => ClaimKeepsDeliveries(sha, s, id, now, lease, token);
      case OfHolder(h, b, now) => HolderKeepsDeliveries(sha, s, h, b, now);
      case OfUpkeep(b) => UpkeepKeepsDeliveries(sha, s, b);
    }
  }

  // ---- Incarnations ----

  /** The step is the publication of an enqueue of `id` that returns with `created` set: its call is over, with no
      upload left to delete. */
  predicate Creates(s: Sys, a: Step, t: Sys, id: Bytes) {
    && a.OfEnqueue? && a.enqueue.Publish?
    && a.enqueue.serial in s.uploads && s.uploads[a.enqueue.serial].job.id == id
    && a.enqueue.serial !in t.uploads
  }

  predicate Removed(s: Sys, t: Sys, id: Bytes) {
    id in s.jobs && id !in t.jobs
  }

  /** How many of the first `i` steps are enqueues of `id` that report `created`. */
  ghost function Creations(states: seq<Sys>, steps: seq<Step>, id: Bytes, i: nat): nat
    requires i <= |steps| < |states|
  {
    if i == 0 then 0
    else Creations(states, steps, id, i - 1) + if Creates(states[i - 1], steps[i - 1], states[i], id) then 1 else 0
  }

  /** How many of the first `i` steps remove the record of `id`. */
  ghost function Removals(states: seq<Sys>, id: Bytes, i: nat): nat
    requires i < |states|
  {
    if i == 0 then 0 else Removals(states, id, i - 1) + if Removed(states[i - 1], states[i], id) then 1 else 0
  }

  /** What a job's creator wrote and no later step rewrites. */
  predicate SameOrigin(a: Job, b: Job) {
    && a.id == b.id && a.payload == b.payload && a.size == b.size && a.digest == b.digest
    && a.maxRetries == b.maxRetries && a.createdAt == b.createdAt
  }

  ghost predicate OriginsStay(s: Sys, t: Sys) {
    forall id :: id in s.jobs && id in t.jobs ==> SameOrigin(s.jobs[id], t.jobs[id])
  }

  /** A record appears exactly when an enqueue reports that it created it, and then it is that enqueue's. */
  ghost predicate AppearsByCreation(s: Sys, a: Step, t: Sys) {
    forall id ::
      && (Creates(s, a, t, id) <==> id !in s.jobs && id in t.jobs)
      && (Creates(s, a, t, id) ==> t.jobs[id] == s.uploads[a.enqueue.serial].job)
  }

  lemma PublishAppears(s: Sys, n: nat)
    requires n in s.uploads
    ensures AppearsByCreation(s, OfEnqueue(Publish(n)), DoPublish(s, n)) && OriginsStay(s, DoPublish(s, n))
  {
    var t := DoPublish(s, n);
    if s.uploads[n].job.id in s.jobs {
      assert t.jobs == s.jobs && n in t.uploads;
    } else {
      assert t.jobs == s.jobs[s.uploads[n].job.id := s.uploads[n].job] && t.uploads == s.uploads - {n};
    }
  }

  lemma EnqueueAppears(sha: Digest, s: Sys, a: EnqueueStep)
    requires EnqueueEnabled(s, a)
    ensures AppearsByCreation(s, OfEnqueue(a), ApplyEnqueue(sha, s, a)) && OriginsStay(s, ApplyEnqueue(sha, s, a))
  {
    if a.Publish? {
      PublishAppears(s, a.serial);
    } else {
      EnqueueFrame(sha, s, a);
    }
  }

  lemma ReapAppears(jobs: Records, now: int)
    ensures ReapAll(jobs, now).Keys == jobs.Keys
    ensures forall id :: id in jobs ==> SameOrigin(jobs[id], ReapAll(jobs, now)[id])
  {
  }

  lemma UpkeepAppears(s: Sys, a: UpkeepStep)
    requires UpkeepEnabled(s, a)
    ensures ApplyUpkeep(s, a).jobs.Keys <= s.jobs.Keys && OriginsStay(s, ApplyUpkeep(s, a))
  {
    match a {
      case Reap(now) => ReapAppears(s.jobs, now);
      case RemoveRecord(c) =>
        var j := s.cleanups[c].job;
        assert ApplyUpkeep(s, a).jobs == RemoveCompleted(s.jobs, j.id, j.leaseToken);
      case Requeue(id, now, stamp) => assert ApplyUpkeep(s, a).jobs == s.jobs[id := Requeued(s.jobs[id], stamp)];
      case _ => assert ApplyUpkeep(s, a).jobs == s.jobs;
    }
  }

  lemma StepAppears(sha: Digest, s: Sys, a: Step, t: Sys)
    requires Follows(sha, s, a, t)
    ensures AppearsByCreation(s, a, t) && OriginsStay(s, t)
  {
    match a {
      case OfEnqueue(b) => EnqueueAppears(sha, s, b);
      case OfClaim(_, _, _, _) =>
      case OfHolder(h, b, now) => HolderRecords(s, h, b, now);
      case OfUpkeep(b) => UpkeepAppears(s, b);
    }
  }

  lemma StepAppearsAt(sha: Digest, s: Sys, a: Step, t: Sys, id: Bytes)
    requires Follows(sha, s, a, t)
    ensures Creates(s, a, t, id) <==> id !in s.jobs && id in t.jobs
    ensures Creates(s, a, t, id) ==> t.jobs[id] == s.uploads[a.enqueue.serial].job
    ensures id in s.jobs && id in t.jobs ==> SameOrigin(s.jobs[id], t.jobs[id])
  {
    StepAppears(sha, s, a, t);
  }

  /** A losing enqueue deletes its own upload and nothing else: a body that was never published. */
  lemma LoserDeletesOwnUpload(sha: Digest, s: Sys, n: nat)
    requires Safe(sha, s) && EnqueueEnabled(s, DropUpload(n))
    ensures var own := PayloadKey(s.uploads[n].job.id, n);
            && ApplyEnqueue(sha, s, DropUpload(n)).payloads == s.payloads - {own}
            && own !in s.tallies && forall id :: id in s.jobs ==> s.jobs[id].payload != own
  {
    assert UploadOk(sha, s, n, s.uploads[n]);
    forall id | id in s.jobs ensures s.jobs[id].payload in s.tallies {
      assert RecordOk(sha, s, id, s.jobs[id]);
    }
  }

  // ---- Whole runs ----

  /** All that holds at every point of every run. */
  ghost predicate QueueOk(sha: Digest, s: Sys) {
    Safe(sha, s) && LeasesOk(s.jobs, s.grants, s.clock) && DeliveriesOk(s)
  }

  lemma StepKeepsQueue(sha: Digest, s: Sys, a: Step, t: Sys)
    requires QueueOk(sha, s) && Follows(sha, s, a, t)
    ensures QueueOk(sha, t)
  {
    StepKeepsSafe(sha, s, a, t);
    StepKeepsLeases(sha, s, a, t);
    StepKeepsDeliveries(sha, s, a, t);
  }

  lemma EmptyQueueOk(sha: Digest, clock: int)
    ensures QueueOk(sha, EmptyQueue(clock))
  {
  }

  lemma {:induction false} QueueRun(sha: Digest, states: seq<Sys>, steps: seq<Step>, i: nat)
    requires IsRun(sha, states, steps) && states[0] == EmptyQueue(states[0].clock) && i < |states|
    ensures QueueOk(sha, states[i])
  {
    if i == 0 {
      EmptyQueueOk(sha, states[0].clock);
    } else {
      QueueRun(sha, states, steps, i - 1);
      assert Follows(sha, states[i - 1], steps[i - 1], states[i]);
      StepKeepsQueue(sha, states[i - 1], steps[i - 1], states[i]);
    }
  }

  /** In every run, all leases ever granted for one job, over all its incarnations, have disjoint windows. */
  lemma LeasesNeverOverlap(sha: Digest, states: seq<Sys>, steps: seq<Step>, i: nat, t: nat, u: nat)
    requires IsRun(sha, states, steps) && states[0] == EmptyQueue(states[0].clock) && i < |states|
    requires t in states[i].grants && u in states[i].grants && t != u
              && states[i].grants[t].id == states[i].grants[u].id
    ensures var g, h := states[i].grants[t], states[i].grants[u];
            || (if g.ended.Some? then g.ended.value else g.until) <= h.from
            || (if h.ended.Some? then h.ended.value else h.until) <= g.from
  {
    QueueRun(sha, states, steps, i);
    assert Disjoint(states[i].grants[t], states[i].grants[u]);
  }

  /** And a handle is accepted only inside the window of its own lease, before that has ended. */
  lemma AcceptedInsideWindow(sha: Digest, states: seq<Sys>, steps: seq<Step>, i: nat, t: nat, now: int)
    requires IsRun(sha, states, steps) && states[0] == EmptyQueue(states[0].clock) && i < |states|
    requires t in states[i].handles && states[i].clock <= now
    requires Holds(states[i].jobs, states[i].handles[t].id, states[i].handles[t].leaseToken, now)
    ensures t in states[i].grants
    ensures var g := states[i].grants[t];
            g.id == states[i].handles[t].id && g.ended == None && g.from <= now < g.until
  {
    QueueRun(sha, states, steps, i);
    HeldIsCurrent(sha, states[i], t, now);
  }

  lemma HeldIsCurrent(sha: Digest, s: Sys, t: nat, now: int)
    requires Safe(sha, s) && LeasesOk(s.jobs, s.grants, s.clock) && t in s.handles && s.clock <= now
    requires Holds(s.jobs, s.handles[t].id, s.handles[t].leaseToken, now)
    ensures t in s.grants
    ensures s.grants[t].id == s.handles[t].id && s.grants[t].ended == None
    ensures s.grants[t].from <= now < s.grants[t].until
  {
    assert HandleOk(s, t, s.handles[t]);
    assert CurrentOk(s.jobs, s.grants, s.clock, t);
  }

  /** The step claims the incarnation with payload key `k`. */
  predicate ClaimsOne(s: Sys, a: Step, k: PayloadKey) {
    a.OfClaim? && a.id in s.jobs && s.jobs[a.id].payload == k
  }

  /** The step brings it back from the dead letters. */
  predicate RequeuesOne(s: Sys, a: Step, k: PayloadKey) {
    a.OfUpkeep? && a.upkeep.Requeue? && a.upkeep.id in s.jobs && s.jobs[a.upkeep.id].payload == k
  }

  ghost function Claims(states: seq<Sys>, steps: seq<Step>, k: PayloadKey, i: nat): nat
    requires i <= |steps| < |states|
  {
    if i == 0 then 0
    else Claims(states, steps, k, i - 1) + if ClaimsOne(states[i - 1], steps[i - 1], k) then 1 else 0
  }

  ghost function Requeues(states: seq<Sys>, steps: seq<Step>, k: PayloadKey, i: nat): nat
    requires i <= |steps| < |states|
  {
    if i == 0 then 0
    else Requeues(states, steps, k, i - 1) + if RequeuesOne(states[i - 1], steps[i - 1], k) then 1 else 0
  }

  /** What a step does to the tally of `k`, which begins when its job is created. */
  ghost predicate TallyFollows(s: Sys, a: Step, t: Sys, k: PayloadKey) {
    var claims, requeues := if ClaimsOne(s, a, k) then 1 else 0, if RequeuesOne(s, a, k) then 1 else 0;
    && (k in s.tallies ==>
          && k in t.tallies && t.tallies[k].limit == s.tallies[k].limit
          && t.tallies[k].claims == s.tallies[k].claims + claims
          && t.tallies[k].requeues == s.tallies[k].requeues + requeues)
    && (k !in s.tallies ==>
          && claims == 0 && requeues == 0
          && (k in t.tallies ==> t.tallies[k].claims == 0 && t.tallies[k].requeues == 0))
  }

  lemma PublishTallies(sha: Digest, s: Sys, n: nat, k: PayloadKey)
    requires Safe(sha, s) && EnqueueEnabled(s, Publish(n))
    ensures TallyFollows(s, OfEnqueue(Publish(n)), DoPublish(s, n), k)
  {
    assert UploadOk(sha, s, n, s.uploads[n]);
  }

  lemma ClaimTallies(sha: Digest, s: Sys, id: Bytes, now: int, lease: int, token: nat, k: PayloadKey)
    requires Safe(sha, s) && id in s.jobs
    ensures TallyFollows(s, OfClaim(id, now, lease, token), DoClaim(s, id, now, lease, token), k)
  {
    assert RecordOk(sha, s, id, s.jobs[id]);
  }

  lemma RequeueTallies(sha: Digest, s: Sys, id: Bytes, now: int, stamp: int, k: PayloadKey)
    requires Safe(sha, s) && id in s.jobs
    ensures TallyFollows(s, OfUpkeep(Requeue(id, now, stamp)), DoRequeue(s, id, now, stamp), k)
  {
    assert RecordOk(sha, s, id, s.jobs[id]);
  }

  lemma UpkeepTallies(sha: Digest, s: Sys, a: UpkeepStep, k: PayloadKey)
    requires Safe(sha, s) && UpkeepEnabled(s, a)
    ensures TallyFollows(s, OfUpkeep(a), ApplyUpkeep(s, a), k)
  {
    if a.Requeue? {
      RequeueTallies(sha, s, a.id, a.now, a.stamp, k);
    } else {
      assert ApplyUpkeep(s, a).tallies == s.tallies;
    }
  }

  lemma StepTallies(sha: Digest, s: Sys, a: Step, t: Sys, k: PayloadKey)
    requires Safe(sha, s) && Follows(sha, s, a, t)
    ensures TallyFollows(s, a, t, k)
  {
    match a {
      case OfEnqueue(b) =>
        if b.Publish? {
          PublishTallies(sha, s, b.serial, k);
        } else {
          EnqueueFrame(sha, s, b);
        }
      case OfClaim(id, now, lease, token) => ClaimTallies(sha, s, id, now, lease, token, k);
      case OfHolder(h, b, now) => HolderRecords(s, h, b, now);
      case OfUpkeep(b) => UpkeepTallies(sha, s, b, k);
    }
  }

  lemma NextTallies(sha: Digest, states: seq<Sys>, steps: seq<Step>, i: nat, k: PayloadKey)
    requires IsRun(sha, states, steps) && states[0] == EmptyQueue(states[0].clock) && i < |steps|
    ensures TallyFollows(states[i], steps[i], states[i + 1], k)
  {
    RunStaysSafe(sha, states, steps, i);
    assert Follows(sha, states[i], steps[i], states[i + 1]);
    StepTallies(sha, states[i], steps[i], states[i + 1], k);
  }

  /** Every step of the run does that to the tally of `k`, which is not there at first. */
  ghost predicate TallyRun(states: seq<Sys>, steps: seq<Step>, k: PayloadKey) {
    && |states| == |steps| + 1 && k !in states[0].tallies
    && forall i {:trigger steps[i]} :: 0 <= i < |steps| ==> TallyFollows(states[i], steps[i], states[i + 1], k)
  }

  lemma RunTallies(sha: Digest, states: seq<Sys>, steps: seq<Step>, k: PayloadKey)
    requires IsRun(sha, states, steps) && states[0] == EmptyQueue(states[0].clock)
    ensures TallyRun(states, steps, k)
  {
    forall i {:trigger steps[i]} | 0 <= i < |steps| ensures TallyFollows(states[i], steps[i], states[i + 1], k) {
      NextTallies(sha, states, steps, i, k);
    }
  }

  ghost predicate IsCounted(s: Sys, k: PayloadKey, claims: nat, requeues: nat) {
    if k in s.tallies then s.tallies[k].claims == claims && s.tallies[k].requeues == requeues
    else claims == 0 && requeues == 0
  }

  /** The tallies are what the run's steps add up to. */
  lemma {:induction false} TalliesCount(states: seq<Sys>, steps: seq<Step>, i: nat, k: PayloadKey)
    requires TallyRun(states, steps, k) && i <= |steps|
    ensures IsCounted(states[i], k, Claims(states, steps, k, i), Requeues(states, steps, k, i))
  {
    if i > 0 {
      TalliesCount(states, steps, i - 1, k);
      assert TallyFollows(states[i - 1], steps[i - 1], states[i], k);
    }
  }

  lemma {:induction false} LimitStays(states: seq<Sys>, steps: seq<Step>, n: nat, i: nat, k: PayloadKey)
    requires TallyRun(states, steps, k) && n <= i <= |steps| && k in states[n].tallies
    ensures k in states[i].tallies && states[i].tallies[k].limit == states[n].tallies[k].limit
    decreases i
  {
    if n < i {
      LimitStays(states, steps, n, i - 1, k);
      assert TallyFollows(states[i - 1], steps[i - 1], states[i], k);
    }
  }

  lemma RecordIsTallied(sha: Digest, states: seq<Sys>, steps: seq<Step>, i: nat, id: Bytes)
    requires IsRun(sha, states, steps) && states[0] == EmptyQueue(states[0].clock) && i < |states|
    requires id in states[i].jobs
    ensures DeliveryOk(states[i], states[i].jobs[id])
  {
    QueueRun(sha, states, steps, i);
  }

  lemma LimitIsTallied(sha: Digest, states: seq<Sys>, steps: seq<Step>, i: nat, id: Bytes)
    requires IsRun(sha, states, steps) && states[0] == EmptyQueue(states[0].clock) && i < |states|
    requires id in states[i].jobs
    ensures var j := states[i].jobs[id];
            j.payload in states[i].tallies && states[i].tallies[j.payload].limit == j.maxRetries
  {
    RecordIsTallied(sha, states, steps, i, id);
  }

  lemma TallyIsBounded(sha: Digest, states: seq<Sys>, steps: seq<Step>, i: nat, k: PayloadKey)
    requires IsRun(sha, states, steps) && states[0] == EmptyQueue(states[0].clock) && i < |states|
    requires k in states[i].tallies
    ensures TallyOk(states[i].tallies[k])
  {
    QueueRun(sha, states, steps, i);
  }

  lemma ClaimsAreBounded(sha: Digest, states: seq<Sys>, steps: seq<Step>, i: nat, k: PayloadKey)
    requires IsRun(sha, states, steps) && states[0] == EmptyQueue(states[0].clock) && i <= |steps|
    requires k in states[i].tallies
    ensures Within(Claims(states, steps, k, i), states[i].tallies[k].limit, Requeues(states, steps, k, i))
  {
    TallyIsBounded(sha, states, steps, i, k);
    RunTallies(sha, states, steps, k);
    TalliesCount(states, steps, i, k);
  }

  /** In every run, an incarnation of a job, recognised by its payload, is claimed at most (retry limit, at least 1)
      times (1 + requeues), counting the steps of the run. */
  lemma DeliveriesAreBounded(
    sha: Digest, states: seq<Sys>, steps: seq<Step>, n: nat, i: nat, id: Bytes)
    requires IsRun(sha, states, steps) && states[0] == EmptyQueue(states[0].clock) && n <= i <= |steps|
    requires id in states[n].jobs
    ensures var j := states[n].jobs[id];
            Within(Claims(states, steps, j.payload, i), j.maxRetries, Requeues(states, steps, j.payload, i))
  {
    var k := states[n].jobs[id].payload;
    LimitIsTallied(sha, states, steps, n, id);
    RunTallies(sha, states, steps, k);
    LimitStays(states, steps, n, i, k);
    ClaimsAreBounded(sha, states, steps, i, k);
  }

  /** And the attempts on its record keep within the limit. */
  lemma AttemptsAreBounded(sha: Digest, states: seq<Sys>, steps: seq<Step>, i: nat, id: Bytes)
    requires IsRun(sha, states, steps) && states[0] == EmptyQueue(states[0].clock) && i < |states|
    requires id in states[i].jobs
    ensures var j := states[i].jobs[id];
            && (j.state.Claimed? ==> 1 <= j.attempts <= AtLeastOne(j.maxRetries))
            && (j.state.Pending? ==> j.attempts < AtLeastOne(j.maxRetries))
  {
    RecordIsTallied(sha, states, steps, i, id);
  }

  /** In every run, however enqueues of one ID race, the number that reported `created` exceeds the number of removals
      of its record by one while the job exists and equals it otherwise: one per incarnation. */
  lemma {:induction false} EnqueueWinnersAreUnique(sha: Digest, states: seq<Sys>, steps: seq<Step>, i: nat, id: Bytes)
    requires IsRun(sha, states, steps) && states[0] == EmptyQueue(states[0].clock) && i < |states|
    ensures Creations(states, steps, id, i) == Removals(states, id, i) + if id in states[i].jobs then 1 else 0
  {
    if i > 0 {
      EnqueueWinnersAreUnique(sha, states, steps, i - 1, id);
      assert Follows(sha, states[i - 1], steps[i - 1], states[i]);
      StepAppearsAt(sha, states[i - 1], steps[i - 1], states[i], id);
    }
  }

  lemma {:induction false} RemovalsGrow(states: seq<Sys>, i: nat, j: nat, id: Bytes)
    requires i <= j < |states|
    ensures Removals(states, id, i) <= Removals(states, id, j)
    decreases j
  {
    if i < j {
      RemovalsGrow(states, i, j - 1, id);
    }
  }

  lemma {:induction false} OriginIsKept(sha: Digest, states: seq<Sys>, steps: seq<Step>, i: nat, j: nat, id: Bytes)
    requires IsRun(sha, states, steps) && i <= j < |states|
    requires id in states[i].jobs && Removals(states, id, j) == Removals(states, id, i)
    ensures id in states[j].jobs && SameOrigin(states[i].jobs[id], states[j].jobs[id])
    decreases j
  {
    if i < j {
      RemovalsGrow(states, i, j - 1, id);
      OriginIsKept(sha, states, steps, i, j - 1, id);
      assert Follows(sha, states[j - 1], steps[j - 1], states[j]);
      StepAppearsAt(sha, states[j - 1], steps[j - 1], states[j], id);
    }
  }

  /** However later enqueues race, from the step on that reports `created`, until a record of this ID is removed, the
      job is there and keeps the payload, size, digest and retry limit of that enqueue. */
  lemma WinnerIsKept(sha: Digest, states: seq<Sys>, steps: seq<Step>, i: nat, j: nat, id: Bytes)
    requires IsRun(sha, states, steps) && i < j < |states| && Creates(states[i], steps[i], states[i + 1], id)
    requires Removals(states, id, j) == Removals(states, id, i + 1)
    ensures id in states[j].jobs && SameOrigin(states[i].uploads[steps[i].enqueue.serial].job, states[j].jobs[id])
  {
    assert Follows(sha, states[i], steps[i], states[i + 1]);
    StepAppearsAt(sha, states[i], steps[i], states[i + 1], id);
    OriginIsKept(sha, states, steps, i + 1, j, id);
  }
}
