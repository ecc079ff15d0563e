/** The queue's operations, run one at a time on the two stores. */
module Queues {
  import opened ByteStrings
  import opened Results
  import opened Sorting
  import opened Jobs

  /** "idem-". */
  const IDEM: Bytes := [0x69, 0x64, 0x65, 0x6D, 0x2D]

  /** The ID of an enqueued job: the given one, or one derived from the idempotency key, or a newly generated one. */
  function JobId(sha: Digest, name: Bytes, jobId: Bytes, idempotencyKey: Bytes, generated: Bytes): Bytes {
    if jobId != [] then jobId
    else if idempotencyKey != [] then IDEM + sha(name + [0] + idempotencyKey)
    else generated
  }

  /** Within a queue two idempotency keys name the same job exactly when they are equal. */
  lemma IdempotencyKeysNameJobs(sha: Digest, name: Bytes, a: Bytes, b: Bytes, generated: Bytes, other: Bytes)
    requires a != [] && b != [] && forall x, y :: sha(x) == sha(y) ==> x == y
    ensures JobId(sha, name, [], a, generated) == JobId(sha, name, [], b, other) <==> a == b
  {
    var x, y := name + [0] + a, name + [0] + b;
    assert (IDEM + sha(x))[|IDEM|..] == sha(x) && (IDEM + sha(y))[|IDEM|..] == sha(y);
    assert x[|name| + 1..] == a && y[|name| + 1..] == b;
  }

  predicate KeepsAll(before: Payloads, after: Payloads) {
    forall k :: k in before ==> k in after && after[k] == before[k]
  }

  class Queue {
    const sha: Digest
    const name: Bytes
    const lease: int
    const maxRetries: int
    var jobs: Records
    var payloads: Payloads
    /** Source of payload suffixes and lease tokens that were never used before. */
    var ids: nat

    constructor (sha: Digest, name: Bytes, lease: int, maxRetries: int)
      ensures Valid() && jobs == map[] && payloads == map[]
      ensures this.sha == sha && this.name == name && this.lease == lease && this.maxRetries == maxRetries
    {
      this.sha, this.name, this.lease, this.maxRetries := sha, name, lease, maxRetries;
      jobs, payloads, ids := map[], map[], 0;
    }

    ghost predicate Valid()
      reads this
    {
      && (forall id :: id in jobs ==> jobs[id].id == id && jobs[id].payload.serial < ids)
      && (forall id :: id in jobs && jobs[id].leaseToken.Some? ==> jobs[id].leaseToken.value < ids)
      && (forall k :: k in payloads ==> k.serial < ids)
    }

    /** The publishing transaction, and the deletion of the own upload when it does not create the record. `commits` is
        false when the transaction fails, `drops` when the deletion does; its failure is ignored. */
    method Publish(j: Job, commits: bool, drops: bool) returns (r: Result<bool, Error>)
      requires Valid() && j.payload.serial < ids && j.leaseToken.None?
      modifies this`jobs, this`payloads
      ensures Valid()
      ensures r == if j.id in old(jobs) then Ok(false) else if commits then Ok(true) else Err(Unavailable)
      ensures jobs == if r == Ok(true) then old(jobs)[j.id := j] else old(jobs)
      ensures payloads == if r != Ok(true) && drops then old(payloads) - {j.payload} else old(payloads)
    {
      if j.id in jobs {
        payloads := if drops then payloads - {j.payload} else payloads;
        return Ok(false);
      }
      if !commits {
        payloads := if drops then payloads - {j.payload} else payloads;
        return Err(Unavailable);
      }
      jobs := jobs[j.id := j];
      return Ok(true);
    }

    /** Uploads the payload, then publishes the job. */
    method EnqueueReader(jobId: Bytes, idempotencyKey: Bytes, generated: Bytes, body: Bytes, size: int,
                         maxRetries: int, delay: int, now: int, commits: bool, drops: bool)
      returns (id: Bytes, created: Result<bool, Error>)
      requires Valid()
      modifies this
      ensures Valid() && id == JobId(sha, name, jobId, idempotencyKey, generated)
      ensures jobId != [] ==> id == jobId
      ensures jobId == [] ==>
                id == if idempotencyKey != [] then IDEM + sha(name + [0] + idempotencyKey) else generated
      ensures id in old(jobs) ==> created == Ok(false) && jobs == old(jobs) && payloads == old(payloads)
      ensures id !in old(jobs) ==> (created == Ok(true) <==> commits && (size < 0 || |body| == size))
      ensures created == Ok(true) ==>
                && id in jobs && jobs == old(jobs)[id := jobs[id]]
                && jobs[id].payload !in old(payloads) && payloads == old(payloads)[jobs[id].payload := body]
      ensures created == Ok(true) ==>
                var limit := if maxRetries <= 0 then this.maxRetries else maxRetries;
                jobs[id] == Job(id, Pending, jobs[id].payload, |body|, sha(body), 0, limit, now + delay, None, None,
                                now, now)
      ensures created != Ok(true) ==> jobs == old(jobs)
      ensures created.Err? ==> created.error == if size >= 0 && |body| != size then SizeMismatch else Unavailable
      ensures created != Ok(true) && drops ==> payloads == old(payloads)
      ensures KeepsAll(old(payloads), payloads)
    {
      id := jobId;
      if id == [] && idempotencyKey != [] {
        id := IDEM + sha(name + [0] + idempotencyKey);
      }
      if id == [] {
        id := generated;
      }
      if id in jobs {
        return id, Ok(false);
      }
      var j := Upload(id, body, size, maxRetries, delay, now);
      if j.Err? {
        return id, Err(j.error);
      }
      created := Publish(j.value, commits, drops);
    }

    /** Stores the payload under a new key, and makes the job's first record. */
    method Upload(id: Bytes, body: Bytes, size: int, maxRetries: int, delay: int, now: int)
      returns (j: Result<Job, Error>)
      requires Valid()
      modifies this`payloads, this`ids
      ensures Valid() && (j.Ok? <==> size < 0 || |body| == size)
      ensures j.Err? ==> payloads == old(payloads) && j.error == SizeMismatch
      ensures j.Ok? ==>
                && j.value.payload !in old(payloads) && j.value.payload.serial < ids
                && payloads == old(payloads)[j.value.payload := body]
                && j.value == NewJob(id, j.value.payload, |body|, sha(body),
                                     if maxRetries <= 0 then this.maxRetries else maxRetries, now, delay)
    {
      var key := PayloadKey(id, ids);
      ids := ids + 1;
      if size >= 0 && |body| != size {
        return Err(SizeMismatch);
      }
      payloads := payloads[key := body];
      var limit := maxRetries;
      if limit <= 0 {
        limit := this.maxRetries;
      }
      return Ok(NewJob(id, key, |body|, sha(body), limit, now, delay));
    }

    /** The scan of a claim: every eligible job. */
    method Candidates(now: int) returns (candidates: seq<Job>)
      requires Valid()
      ensures forall j :: j in candidates <==> j.id in jobs && jobs[j.id] == j && Eligible(j, now)
    {
      candidates := [];
      var todo := jobs.Keys;
      while todo != {}
        invariant todo <= jobs.Keys
        invariant forall j :: j in candidates <==> j.id in jobs && jobs[j.id] == j && j.id !in todo && Eligible(j, now)
        decreases todo
      {
        var id :| id in todo;
        todo := todo - {id};
        if jobs[id].state.Pending? && jobs[id].availableAt <= now {
          candidates := candidates + [jobs[id]];
        }
      }
    }

    /** The first of them in claim order. */
    method FirstEligible(now: int) returns (m: Option<Job>)
      requires Valid()
      ensures m.None? <==> forall id :: id in jobs ==> !(jobs[id].state.Pending? && jobs[id].availableAt <= now)
      ensures m.Some? ==> IsFirst(jobs, now, m.value.id) && m.value == jobs[m.value.id]
    {
      var candidates := Candidates(now);
      if |candidates| == 0 {
        assert forall id :: id in jobs && Eligible(jobs[id], now) ==> jobs[id] in candidates;
        return None;
      }
      var sorted := Sort(NotLater, candidates);
      SortedFirst(candidates);
      assert sorted[0] in candidates;
      FirstOfCandidates(jobs, now, candidates, sorted[0]);
      return Some(sorted[0]);
    }

    /** Takes the first eligible job in claim order. */
    method Claim(leaseOption: int, now: int) returns (r: Result<Handle, Error>)
      requires Valid()
      modifies this
      ensures Valid() && payloads == old(payloads)
      ensures r.Err? <==>
                forall id :: id in old(jobs) ==> !(old(jobs)[id].state.Pending? && old(jobs)[id].availableAt <= now)
      ensures r.Err? ==> r.error == NoJob && jobs == old(jobs)
      ensures r.Ok? ==>
                var j := r.value.meta;
                && fresh(r.value) && r.value.q == this
                && j.id in old(jobs) && jobs == old(jobs)[j.id := j]
                && j.leaseToken.Some? && (forall id :: id in old(jobs) ==> old(jobs)[id].leaseToken != j.leaseToken)
      ensures r.Ok? ==>
                var j := r.value.meta;
                var first := old(jobs)[j.id];
                && first.state.Pending? && first.availableAt <= now
                && (forall id ::
                      id in old(jobs) && id != j.id && old(jobs)[id].state.Pending? && old(jobs)[id].availableAt <= now
                      ==>
                        || first.availableAt < old(jobs)[id].availableAt
                        || (first.availableAt == old(jobs)[id].availableAt
                            && (first.createdAt < old(jobs)[id].createdAt
                                || (first.createdAt == old(jobs)[id].createdAt && Less(j.id, id)))))
                && j == first.(state := Claimed,
                               attempts := first.attempts + 1,
                               leaseUntil := Some(now + if leaseOption <= 0 then lease else leaseOption),
                               leaseToken := j.leaseToken,
                               updatedAt := now)
      ensures r.Ok? ==>
                var j := r.value.meta;
                && IsFirst(old(jobs), now, j.id)
                && j == Leased(old(jobs)[j.id], now, if leaseOption <= 0 then lease else leaseOption,
                               j.leaseToken.value)
    {
      var d := leaseOption;
      if d <= 0 {
        d := lease;
      }
      var first := FirstEligible(now);
      if first.None? {
        return Err(NoJob);
      }
      FirstInFields(jobs, now, first.value.id);
      var m := Leased(first.value, now, d, ids);
      ids := ids + 1;
      jobs := jobs[m.id := m];
      var h := new Handle(this, m);
      return Ok(h);
    }

    method RequeueDead(id: Bytes, now: int) returns (r: Result<(), Error>)
      modifies this`jobs
      ensures r.Ok? <==> id in old(jobs) && old(jobs)[id].state.Dead?
      ensures r.Err? ==> r.error == (if id in old(jobs) then NotDead else JobNotFound)
      ensures jobs == if r.Ok? then old(jobs)[id := Requeued(old(jobs)[id], now)] else old(jobs)
      ensures r.Ok? ==>
                jobs[id] == old(jobs)[id].(state := Pending,
                                           attempts := 0,
                                           availableAt := now,
                                           leaseUntil := None,
                                           updatedAt := now)
    {
      if id !in jobs {
        return Err(JobNotFound);
      }
      var m := jobs[id];
      if m.state != Dead {
        return Err(NotDead);
      }
      m := m.(state := Pending, attempts := 0, availableAt := now, leaseUntil := None, updatedAt := now);
      jobs := jobs[id := m];
      return Ok(());
    }

    /** The transaction that removes a completed record. */
    method RemoveRecord(id: Bytes, token: Option<nat>) returns (r: Result<(), Error>)
      modifies this`jobs
      ensures jobs == RemoveCompleted(old(jobs), id, token)
      ensures r.Ok? <==> id in old(jobs) ==> old(jobs)[id].state.Completed? && old(jobs)[id].leaseToken == token
      ensures jobs == if r.Ok? then old(jobs) - {id} else old(jobs)
      ensures r.Err? ==> r.error == NotClaimed
    {
      if id !in jobs {
        return Ok(());
      }
      if jobs[id].state != Completed || jobs[id].leaseToken != token {
        return Err(NotClaimed);
      }
      jobs := jobs - {id};
      return Ok(());
    }

    /** The reaper: ends every expired lease, then cleans up the completed jobs it saw. Deleting a payload in `failing`
        fails, and its record then stays. */
    method ReapExpired(now: int, failing: set<PayloadKey>)
      requires Valid()
      modifies this`jobs, this`payloads
      ensures Valid()
      ensures forall id :: id in jobs <==>
                id in old(jobs) && !(old(jobs)[id].state.Completed? && old(jobs)[id].payload !in failing)
      ensures forall id :: id in jobs ==>
                var j := old(jobs)[id];
                if j.state.Claimed? && j.leaseUntil.Some? && j.leaseUntil.value <= now then
                  jobs[id] == j.(state := if j.attempts < j.maxRetries then Pending else Dead,
                                 availableAt := if j.attempts < j.maxRetries then now else j.availableAt,
                                 leaseUntil := None,
                                 leaseToken := None,
                                 updatedAt := now)
                else jobs[id] == j
      ensures payloads == old(payloads) - CompletedPayloads(old(jobs), failing)
    {
      ghost var entries := jobs;
      var completed := ReapLeases(now);
      CompletedDone(entries, now, completed, failing);
      CleanUp(completed, failing);
      ReapedAndCleaned(entries, now, failing);
    }

    /** The reaper's second phase, which runs outside its transaction, so that the records may be others by now: per
        completed record seen, delete the payload, then the record if it is still that one. */
    method CleanUp(completed: seq<Job>, failing: set<PayloadKey>)
      requires Valid()
      modifies this`jobs, this`payloads
      ensures Valid()
      ensures jobs == old(jobs) - CleanIds(old(jobs), completed, failing)
      ensures payloads == old(payloads) - CleanKeys(completed, failing)
    {
      ghost var entries, bodies := jobs, payloads;
      for i := 0 to |completed|
        invariant Valid()
        invariant jobs == entries - CleanIds(entries, completed[..i], failing)
        invariant payloads == bodies - CleanKeys(completed[..i], failing)
      {
        var m := completed[i];
        CleanStep(entries, jobs, completed, i, failing);
        CleanKeysGrow(completed, i, failing);
        if m.payload in failing {
          continue;
        }
        payloads := payloads - {m.payload};
        CleanUpRecord(m);
      }
      assert completed[..|completed|] == completed;
    }

    method CleanUpRecord(m: Job)
      requires Valid()
      modifies this`jobs
      ensures Valid() && jobs == RemoveCompleted(old(jobs), m.id, m.leaseToken)
      ensures m.id in old(jobs) && old(jobs)[m.id].state.Completed? && old(jobs)[m.id].leaseToken == m.leaseToken ==>
                jobs == old(jobs) - {m.id}
    {
      if m.id in jobs && jobs[m.id].state.Completed? && jobs[m.id].leaseToken == m.leaseToken {
        jobs := jobs - {m.id};
      }
    }

    /** The reaper's transaction. It returns the completed records it found. */
    method ReapLeases(now: int) returns (completed: seq<Job>)
      requires Valid()
      modifies this`jobs
      ensures jobs == ReapAll(old(jobs), now)
      ensures jobs.Keys == old(jobs).Keys
      ensures forall id :: id in jobs ==>
                var j := old(jobs)[id];
                if j.state.Claimed? && j.leaseUntil.Some? && j.leaseUntil.value <= now then
                  jobs[id] == j.(state := if j.attempts < j.maxRetries then Pending else Dead,
                                 availableAt := if j.attempts < j.maxRetries then now else j.availableAt,
                                 leaseUntil := None,
                                 leaseToken := None,
                                 updatedAt := now)
                else jobs[id] == j
      ensures forall j :: j in completed <==> j.id in old(jobs) && old(jobs)[j.id] == j && j.state.Completed?
    {
      var entries := jobs;
      completed := [];
      var todo := entries.Keys;
      while todo != {}
        invariant todo <= entries.Keys
        invariant jobs == PartReaped(entries, todo, now)
        invariant forall j :: j in completed <==>
                  j.id in entries && entries[j.id] == j && j.id !in todo && j.state.Completed?
        decreases todo
      {
        var id :| id in todo;
        PartReapedStep(entries, todo, id, now);
        todo := todo - {id};
        var m := entries[id];
        if m.state == Completed {
          completed := completed + [m];
          continue;
        }
        if m.state != Claimed || m.leaseUntil.None? || m.leaseUntil.value > now {
          continue;
        }
        if m.attempts >= m.maxRetries {
          m := m.(state := Dead);
        } else {
          m := m.(state := Pending, availableAt := now);
        }
        m := m.(leaseUntil := None, leaseToken := None, updatedAt := now);
        jobs := jobs[m.id := m];
      }
    }
  }

  /** A claimed job in a worker's hands. */
  class Handle {
    const q: Queue
    var meta: Job

    constructor (q: Queue, meta: Job)
      ensures this.q == q && this.meta == meta
    {
      this.q, this.meta := q, meta;
    }

    method Check(now: int) returns (r: Result<Job, Error>)
      ensures r.Ok? <==> Holds(q.jobs, meta.id, meta.leaseToken, now)
      ensures r.Ok? <==>
                && meta.id in q.jobs && q.jobs[meta.id].state.Claimed?
                && meta.leaseToken.Some? && q.jobs[meta.id].leaseToken == meta.leaseToken
                && q.jobs[meta.id].leaseUntil.Some? && q.jobs[meta.id].leaseUntil.value > now
      ensures r.Ok? ==> r.value == q.jobs[meta.id]
      ensures r.Err? ==> r.error == WhyNotHeld(q.jobs, meta.id, meta.leaseToken, now)
      ensures r.Err? ==>
                && (r.error == JobNotFound <==> meta.id !in q.jobs)
                && (r.error == LeaseExpired <==>
                      && meta.id in q.jobs && q.jobs[meta.id].state.Claimed?
                      && meta.leaseToken.Some? && q.jobs[meta.id].leaseToken == meta.leaseToken)
                && (r.error == JobNotFound || r.error == LeaseExpired || r.error == NotClaimed)
    {
      if meta.id !in q.jobs {
        return Err(JobNotFound);
      }
      var m := q.jobs[meta.id];
      if m.state != Claimed || m.leaseToken.None? || m.leaseToken != meta.leaseToken {
        return Err(NotClaimed);
      }
      if m.leaseUntil.None? || m.leaseUntil.value <= now {
        return Err(LeaseExpired);
      }
      return Ok(m);
    }

    /** `now` is read when the transaction begins, `later` inside the transition. */
    method Renew(d: int, now: int, later: int) returns (r: Result<(), Error>)
      modifies this`meta, q`jobs
      ensures r.Ok? <==> Holds(old(q.jobs), old(meta).id, old(meta).leaseToken, now)
      ensures r.Ok? ==> var until := later + if d <= 0 then q.lease else d;
                        && q.jobs == old(q.jobs)[old(meta).id := Renewed(old(q.jobs)[old(meta).id], now, until)]
                        && q.jobs[old(meta).id]
                           == old(q.jobs)[old(meta).id].(leaseUntil := Some(until), updatedAt := now)
                        && meta == old(meta).(leaseUntil := Some(until))
      ensures r.Err? ==> q.jobs == old(q.jobs) && meta == old(meta)
    {
      var length := d;
      if length <= 0 {
        length := q.lease;
      }
      var m := Check(now);
      if m.Err? {
        return Err(m.error);
      }
      var newLease := later + length;
      q.jobs := q.jobs[meta.id := m.value.(leaseUntil := Some(newLease), updatedAt := now)];
      meta := meta.(leaseUntil := Some(newLease));
      return Ok(());
    }

    method Retry(delay: int, now: int, later: int) returns (r: Result<bool, Error>)
      modifies q`jobs
      ensures r.Ok? <==> Holds(old(q.jobs), meta.id, meta.leaseToken, now)
      ensures r.Ok? ==> q.jobs == old(q.jobs)[meta.id := Retried(old(q.jobs)[meta.id], now, later + delay)]
      ensures r.Ok? ==>
                var j := old(q.jobs)[meta.id];
                && (r.value <==> j.attempts >= j.maxRetries)
                && q.jobs[meta.id] == j.(state := if r.value then Dead else Pending,
                                         availableAt := if r.value then j.availableAt else later + delay,
                                         leaseUntil := None,
                                         leaseToken := None,
                                         updatedAt := now)
      ensures r.Err? ==> q.jobs == old(q.jobs) && r.error == WhyNotHeld(q.jobs, meta.id, meta.leaseToken, now)
    {
      var c := Check(now);
      if c.Err? {
        return Err(c.error);
      }
      var m := c.value;
      var dead := false;
      if m.attempts >= m.maxRetries {
        m := m.(state := Dead, leaseUntil := None, leaseToken := None);
        dead := true;
      } else {
        m := m.(state := Pending, availableAt := later + delay, leaseUntil := None, leaseToken := None);
      }
      q.jobs := q.jobs[meta.id := m.(updatedAt := now)];
      return Ok(dead);
    }

    method Bury(now: int) returns (r: Result<(), Error>)
      modifies q`jobs
      ensures r.Ok? <==> Holds(old(q.jobs), meta.id, meta.leaseToken, now)
      ensures q.jobs == if r.Ok? then old(q.jobs)[meta.id := Buried(old(q.jobs)[meta.id], now)] else old(q.jobs)
      ensures r.Ok? ==>
                q.jobs[meta.id]
                == old(q.jobs)[meta.id].(state := Dead, leaseUntil := None, leaseToken := None, updatedAt := now)
      ensures r.Err? ==> r.error == WhyNotHeld(q.jobs, meta.id, meta.leaseToken, now)
    {
      var m := Check(now);
      if m.Err? {
        return Err(m.error);
      }
      q.jobs := q.jobs[meta.id := m.value.(state := Dead, leaseUntil := None, leaseToken := None, updatedAt := now)];
      return Ok(());
    }

    /** The first transaction of `Complete`. */
    method Mark(now: int) returns (r: Result<(), Error>)
      requires q.Valid()
      modifies q`jobs
      ensures q.Valid()
      ensures var (first, mid) := MarkComplete(old(q.jobs), meta.id, meta.leaseToken, now);
              r.Ok? == first.Ok? && q.jobs == mid && (r.Err? ==> r.error == first.error)
      ensures r.Ok? <==>
                || meta.id !in old(q.jobs)
                || (old(q.jobs)[meta.id].state.Completed? && old(q.jobs)[meta.id].leaseToken == meta.leaseToken)
                || Holds(old(q.jobs), meta.id, meta.leaseToken, now)
      ensures q.jobs == if Holds(old(q.jobs), meta.id, meta.leaseToken, now)
                        then old(q.jobs)[meta.id := old(q.jobs)[meta.id].(state := Completed,
                                                                          leaseUntil := None,
                                                                          updatedAt := now)]
                        else old(q.jobs)
    {
      if meta.id !in q.jobs {
        return Ok(());
      }
      var m := q.jobs[meta.id];
      if m.state == Completed && m.leaseToken == meta.leaseToken {
        return Ok(());
      }
      if m.state != Claimed || m.leaseToken.None? || m.leaseToken != meta.leaseToken {
        return Err(NotClaimed);
      }
      if m.leaseUntil.None? || m.leaseUntil.value <= now {
        return Err(LeaseExpired);
      }
      q.jobs := q.jobs[m.id := m.(state := Completed, leaseUntil := None, updatedAt := now)];
      return Ok(());
    }

    /** Marks the job complete, deletes its payload, removes its record. `deletes` is false when the payload delete
        fails; calling again later resumes. */
    method Complete(now: int, deletes: bool) returns (r: Result<(), Error>)
      requires q.Valid()
      modifies q`jobs, q`payloads
      ensures r.Ok? <==>
                && deletes
                && (|| meta.id !in old(q.jobs)
                    || (old(q.jobs)[meta.id].state.Completed? && old(q.jobs)[meta.id].leaseToken == meta.leaseToken)
                    || Holds(old(q.jobs), meta.id, meta.leaseToken, now))
      ensures r.Ok? ==> q.jobs == old(q.jobs) - {meta.id} && q.payloads == old(q.payloads) - {meta.payload}
      ensures r.Err? ==> q.payloads == old(q.payloads)
      ensures r.Err? ==>
                q.jobs == if Holds(old(q.jobs), meta.id, meta.leaseToken, now)
                          then old(q.jobs)[meta.id := old(q.jobs)[meta.id].(state := Completed,
                                                                            leaseUntil := None,
                                                                            updatedAt := now)]
                          else old(q.jobs)
    {
      var first := Mark(now);
      if first.Err? {
        return first;
      }
      if !deletes {
        return Err(Unavailable);
      }
      q.payloads := q.payloads - {meta.payload};
      r := q.RemoveRecord(meta.id, meta.leaseToken);
    }
  }

  /** The records when the reaper has still `todo` to look at. */
  ghost function PartReaped(entries: Records, todo: set<Bytes>, now: int): Records {
    map id | id in entries :: if id in todo then entries[id] else Reaped(entries[id], now)
  }

  lemma PartReapedStep(entries: Records, todo: set<Bytes>, id: Bytes, now: int)
    requires id in todo && id in entries
    ensures PartReaped(entries, todo - {id}, now) == PartReaped(entries, todo, now)[id := Reaped(entries[id], now)]
    ensures PartReaped(entries, todo, now)[id] == entries[id]
    ensures Reaped(entries[id], now) == entries[id] ==>
              PartReaped(entries, todo - {id}, now) == PartReaped(entries, todo, now)
  {
  }

  ghost function CompletedPayloads(jobs: Records, failing: set<PayloadKey>): set<PayloadKey> {
    set id | id in jobs && jobs[id].state.Completed? && jobs[id].payload !in failing :: jobs[id].payload
  }

  /** The records that go: those that are still the completed ones seen, unless their payload could not be deleted. */
  ghost function CleanIds(jobs: Records, seen: seq<Job>, failing: set<PayloadKey>): set<Bytes> {
    set j | j in seen && j.payload !in failing && Marked(jobs, j.id, j.leaseToken) :: j.id
  }

  ghost function CleanKeys(seen: seq<Job>, failing: set<PayloadKey>): set<PayloadKey> {
    set j | j in seen && j.payload !in failing :: j.payload
  }

  lemma CleanKeysGrow(seen: seq<Job>, i: nat, failing: set<PayloadKey>)
    requires i < |seen|
    ensures CleanKeys(seen[..i + 1], failing) == CleanKeys(seen[..i], failing)
              + if seen[i].payload in failing then {} else {seen[i].payload}
  {
    assert seen[..i + 1] == seen[..i] + [seen[i]];
  }

  lemma CleanIdsGrow(jobs: Records, seen: seq<Job>, i: nat, failing: set<PayloadKey>)
    requires i < |seen|
    ensures CleanIds(jobs, seen[..i + 1], failing) == CleanIds(jobs, seen[..i], failing)
              + if seen[i].payload !in failing && Marked(jobs, seen[i].id, seen[i].leaseToken) then {seen[i].id} else {}
  {
    assert seen[..i + 1] == seen[..i] + [seen[i]];
  }

  /** One more record seen: what is left of all records after its cleanup. */
  lemma CleanStep(entries: Records, jobs: Records, seen: seq<Job>, i: nat, failing: set<PayloadKey>)
    requires i < |seen| && jobs == entries - CleanIds(entries, seen[..i], failing)
    ensures seen[i].payload in failing ==> jobs == entries - CleanIds(entries, seen[..i + 1], failing)
    ensures seen[i].payload !in failing ==>
              RemoveCompleted(jobs, seen[i].id, seen[i].leaseToken)
              == entries - CleanIds(entries, seen[..i + 1], failing)
  {
    var done := CleanIds(entries, seen[..i], failing);
    CleanIdsGrow(entries, seen, i, failing);
    RemoveRest(entries, done, seen[i].id, seen[i].leaseToken);
  }

  lemma RemoveRest(entries: Records, done: set<Bytes>, id: Bytes, token: Option<nat>)
    ensures RemoveCompleted(entries - done, id, token)
            == entries - (done + if Marked(entries, id, token) then {id} else {})
  {
  }

  /** When nothing intervenes, the records seen completed are still the ones stored. */
  lemma CompletedDone(jobs: Records, now: int, completed: seq<Job>, failing: set<PayloadKey>)
    requires forall id :: id in jobs ==> jobs[id].id == id
    requires forall j :: j in completed <==> j.id in jobs && jobs[j.id] == j && j.state.Completed?
    ensures CleanIds(ReapAll(jobs, now), completed, failing) == DoneIds(jobs, failing)
    ensures CleanKeys(completed, failing) == CompletedPayloads(jobs, failing)
  {
    assert forall id :: id in jobs && jobs[id].state.Completed? ==>
             jobs[id] in completed && ReapAll(jobs, now)[id] == jobs[id];
    forall id | id in DoneIds(jobs, failing) ensures id in CleanIds(ReapAll(jobs, now), completed, failing) {
      assert jobs[id] in completed && jobs[id].id == id;
    }
    forall k | k in CompletedPayloads(jobs, failing) ensures k in CleanKeys(completed, failing) {
      var id :| id in jobs && jobs[id].state.Completed? && jobs[id].payload == k;
      assert jobs[id] in completed;
    }
  }

  ghost function DoneIds(jobs: Records, failing: set<PayloadKey>): set<Bytes> {
    set id | id in jobs && jobs[id].state.Completed? && jobs[id].payload !in failing
  }

  lemma ReapedAndCleaned(jobs: Records, now: int, failing: set<PayloadKey>)
    ensures ReapAll(jobs, now) - DoneIds(jobs, failing) ==
            map id | id in jobs && !(jobs[id].state.Completed? && jobs[id].payload !in failing) :: Reaped(jobs[id], now)
  {
  }

  lemma SortedFirst(s: seq<Job>)
    requires s != []
    ensures Sort(NotLater, s) != [] && Sort(NotLater, s)[0] in s
    ensures forall j :: j in s ==> NotLater(Sort(NotLater, s)[0], j)
  {
    ClaimOrder();
    SortSorts(NotLater, s);
    var sorted := Sort(NotLater, s);
    assert sorted[0] in multiset(sorted);
    forall j | j in s ensures NotLater(sorted[0], j) {
      assert j in multiset(s) && j in sorted;
      var i :| 0 <= i < |sorted| && sorted[i] == j;
      assert NotLater(sorted[0], sorted[0]);
    }
  }

  lemma FirstOfCandidates(jobs: Records, now: int, candidates: seq<Job>, m: Job)
    requires forall id :: id in jobs ==> jobs[id].id == id
    requires forall j :: j in candidates <==> j.id in jobs && jobs[j.id] == j && Eligible(j, now)
    requires m in candidates && forall j :: j in candidates ==> NotLater(m, j)
    ensures IsFirst(jobs, now, m.id)
  {
    forall other | other in jobs && Eligible(jobs[other], now) ensures NotLater(m, jobs[other]) {
      assert jobs[other] in candidates;
    }
  }
}
