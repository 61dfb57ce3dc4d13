/** The `jobs` table of app/state_db.py. A row's id is its position; rows are never
    deleted. Every call is atomic under the module lock. */
module JobQueue {
  import opened Wrappers

  datatype JobState = Queued | Running | Cancelling | Completed | Failed | Cancelled

  predicate Active(s: JobState) { s.Queued? || s.Running? || s.Cancelling? }

  type Time = int

  datatype Job = Job(
    jid: string,
    kind: string,
    state: JobState,
    priority: int,
    createdAt: Time,
    attempts: nat,
    maxAttempts: int,
    dedupe: string,
    cancelRequested: bool,
    startedAt: Option<Time>,
    lease: Option<Time>,
    owner: Option<string>,
    nextAttempt: Option<Time>)

  datatype Request = Request(jid: string, kind: string, dedupe: string, priority: int, maxAttempts: int)

  /** The `include_types` and `exclude_types` of a worker; no list means no limit. */
  datatype Kinds = Kinds(only: seq<string>, never: seq<string>)

  const STALE_AFTER: int := 3600
  const REQUEUE_DELAY: int := 5

  // ----- what each call does to the rows -----

  function FindActive(jobs: seq<Job>, key: string): (r: Option<nat>)
    ensures r.Some? ==> r.value < |jobs| && jobs[r.value].dedupe == key && Active(jobs[r.value].state)
    ensures r.Some? ==> forall k | r.value < k < |jobs| :: !(jobs[k].dedupe == key && Active(jobs[k].state))
    ensures r.None? ==> forall k | 0 <= k < |jobs| :: !(jobs[k].dedupe == key && Active(jobs[k].state))
  {
    if jobs == [] then None
    else
      var last := |jobs| - 1;
      if jobs[last].dedupe == key && Active(jobs[last].state) then Some(last)
      else FindActive(jobs[..last], key)
  }

  function NewJob(r: Request, now: Time): Job {
    Job(r.jid, r.kind, Queued, r.priority, now, 0, r.maxAttempts, r.dedupe, false, None, None, None, None)
  }

  /** `enqueue_job`: the rows afterwards, and the row the caller is given. A request
      without a jid or a type is given none. */
  function Enqueued(jobs: seq<Job>, r: Request, now: Time): (seq<Job>, Option<nat>) {
    var found := if r.dedupe == "" then None else FindActive(jobs, r.dedupe);
    if r.jid == "" || r.kind == "" then (jobs, None)
    else if found.Some? then (jobs, found) else (jobs + [NewJob(r, now)], Some(|jobs|))
  }

  predicate Eligible(j: Job, now: Time, kinds: Kinds) {
    && j.state == Queued
    && (j.nextAttempt.Some? ==> j.nextAttempt.value <= now)
    && (kinds.only != [] ==> j.kind in kinds.only)
    && j.kind !in kinds.never
  }

  predicate Before(a: Job, b: Job) {
    a.priority < b.priority || (a.priority == b.priority && a.createdAt <= b.createdAt)
  }

  /** The row a claim may take: eligible, and first by priority and then age. */
  predicate IsNext(jobs: seq<Job>, i: nat, now: Time, kinds: Kinds) {
    && i < |jobs| && Eligible(jobs[i], now, kinds)
    && forall k | 0 <= k < |jobs| :: Eligible(jobs[k], now, kinds) ==> Before(jobs[i], jobs[k])
  }

  function Claimed(j: Job, now: Time, lease: int, worker: string): Job {
    j.(state := Running, startedAt := Some(now), lease := Some(now + lease), owner := Some(worker),
       attempts := j.attempts + 1)
  }

  function Beaten(j: Job, now: Time, lease: int): Job {
    if j.state == Running then j.(lease := Some(now + lease)) else j
  }

  function Marked(j: Job, state: JobState): Job { j.(state := state) }

  /** `WHERE` clause of `schedule_job_retry`. */
  predicate Retryable(j: Job) {
    (j.state.Running? || j.state.Cancelling?) && j.attempts < j.maxAttempts && !j.cancelRequested
  }

  function Requeued(j: Job, at: Time): Job {
    j.(state := Queued, startedAt := None, lease := None, owner := None, nextAttempt := Some(at))
  }

  function CancelAsked(j: Job): Job {
    if !Active(j.state) then j
    else j.(cancelRequested := true, state := if j.state == Running then Cancelling else j.state)
  }

  /** `row["max_attempts"] or 3` in recovery. */
  function RecoveryLimit(j: Job): int { if j.maxAttempts == 0 then 3 else j.maxAttempts }

  predicate Stale(j: Job, now: Time, force: bool) {
    j.state == Running &&
    (|| force
     || (j.lease.Some? && j.lease.value < now)
     || (j.lease.None? && j.startedAt.Some? && j.startedAt.value < now - STALE_AFTER))
  }

  function Recovered(j: Job, now: Time, force: bool): Job {
    if !Stale(j, now, force) then j
    else if j.attempts >= RecoveryLimit(j) then j.(state := Failed)
    else Requeued(j, now + REQUEUE_DELAY)
  }

  function AllRecovered(jobs: seq<Job>, now: Time, force: bool): (r: seq<Job>)
    ensures |r| == |jobs|
    ensures forall i | 0 <= i < |jobs| :: r[i] == Recovered(jobs[i], now, force)
  {
    seq(|jobs|, i requires 0 <= i < |jobs| => Recovered(jobs[i], now, force))
  }

  // ----- the table -----

  class JobTable {
    var jobs: seq<Job>

    constructor ()
      ensures jobs == []
    {
      jobs := [];
    }

    method FindActiveByDedupe(key: string) returns (r: Option<nat>)
      ensures r == if key == "" then None else FindActive(jobs, key)
      ensures r.Some? ==> r.value < |jobs| && jobs[r.value].dedupe == key
      ensures r.Some? ==> jobs[r.value].state in {JobState.Queued, Running, Cancelling}
      ensures forall k | 0 <= k < |jobs| && jobs[k].dedupe == key != "" && jobs[k].state in {JobState.Queued, Running, Cancelling} ::
                r.Some? && k <= r.value
    {
      if key == "" { return None; }
      var i := |jobs|;
      assert jobs[..i] == jobs;
      while i > 0
        invariant 0 <= i <= |jobs|
        invariant FindActive(jobs, key) == FindActive(jobs[..i], key)
      {
        i := i - 1;
        assert jobs[..i + 1][..i] == jobs[..i];
        if jobs[i].dedupe == key && Active(jobs[i].state) { return Some(i); }
      }
      r := None;
    }

    method Enqueue(r: Request, now: Time) returns (id: Option<nat>)
      modifies this
      ensures (jobs, id) == Enqueued(old(jobs), r, now)
      ensures id.Some? ==> id.value < |jobs| && jobs[id.value].state in {JobState.Queued, Running, Cancelling}
      ensures id.Some? ==> jobs[id.value].dedupe == r.dedupe
      ensures id.None? <==> r.jid == "" || r.kind == ""
      ensures jobs == old(jobs) ||
              (jobs == old(jobs) + [Job(r.jid, r.kind, JobState.Queued, r.priority, now, 0, r.maxAttempts, r.dedupe, false, None, None, None, None)]
               && id == Some(|old(jobs)|))
      ensures jobs != old(jobs) <==>
              && r.jid != "" && r.kind != ""
              && (r.dedupe == "" || forall k | 0 <= k < |old(jobs)| && old(jobs)[k].dedupe == r.dedupe ::
                    old(jobs)[k].state in {Completed, Failed, Cancelled})
    {
      if r.jid == "" || r.kind == "" { return None; }
      id := FindActiveByDedupe(r.dedupe);
      if id.Some? { return; }
      id := Some(|jobs|);
      jobs := jobs + [NewJob(r, now)];
    }

    method DequeueNext(worker: string, now: Time, lease: int, kinds: Kinds) returns (r: Option<nat>)
      modifies this
      ensures r.None? ==> jobs == old(jobs) && forall k | 0 <= k < |jobs| :: !Eligible(jobs[k], now, kinds)
      ensures r.Some? ==> && IsNext(old(jobs), r.value, now, kinds)
                          && jobs == old(jobs)[r.value := Claimed(old(jobs)[r.value], now, lease, worker)]
      ensures r.Some? ==>
                var j := old(jobs)[r.value];
                && j.state == JobState.Queued && (j.nextAttempt.None? || j.nextAttempt.value <= now)
                && (kinds.only == [] || j.kind in kinds.only) && j.kind !in kinds.never
                && jobs[r.value] == j.(state := Running, attempts := j.attempts + 1, startedAt := Some(now),
                                       lease := Some(now + lease), owner := Some(worker))
      ensures forall k | 0 <= k < |old(jobs)| ::
                var j := old(jobs)[k];
                && j.state == JobState.Queued && (j.nextAttempt.None? || j.nextAttempt.value <= now)
                && (kinds.only == [] || j.kind in kinds.only) && j.kind !in kinds.never ==>
                r.Some? && (var i := old(jobs)[r.value];
                            i.priority < j.priority || (i.priority == j.priority && i.createdAt <= j.createdAt))
    {
      r := None;
      var i := 0;
      while i < |jobs|
        invariant 0 <= i <= |jobs|
        invariant r.None? ==> forall k | 0 <= k < i :: !Eligible(jobs[k], now, kinds)
        invariant r.Some? ==> && r.value < i && Eligible(jobs[r.value], now, kinds)
                              && forall k | 0 <= k < i :: Eligible(jobs[k], now, kinds) ==> Before(jobs[r.value], jobs[k])
        invariant jobs == old(jobs)
      {
        if Eligible(jobs[i], now, kinds) && (r.None? || !Before(jobs[r.value], jobs[i])) {
          r := Some(i);
        }
        i := i + 1;
      }
      if r.Some? {
        jobs := jobs[r.value := Claimed(jobs[r.value], now, lease, worker)];
      }
    }

    method Heartbeat(id: nat, now: Time, lease: int)
      modifies this
      ensures jobs == if id < |old(jobs)| then old(jobs)[id := Beaten(old(jobs)[id], now, lease)] else old(jobs)
      ensures jobs == if id < |old(jobs)| && old(jobs)[id].state == Running
                      then old(jobs)[id := old(jobs)[id].(lease := Some(now + lease))] else old(jobs)
    {
      if id < |jobs| && jobs[id].state == Running {
        jobs := jobs[id := jobs[id].(lease := Some(now + lease))];
      }
    }

    /** `mark_job_completed`, `mark_job_failed` and `mark_job_cancelled`: no guard. */
    method Mark(id: nat, state: JobState)
      modifies this
      ensures jobs == if id < |old(jobs)| then old(jobs)[id := Marked(old(jobs)[id], state)] else old(jobs)
      ensures id < |old(jobs)| ==> jobs == old(jobs)[id := old(jobs)[id].(state := state)]
    {
      if id < |jobs| {
        jobs := jobs[id := Marked(jobs[id], state)];
      }
    }

    method ScheduleRetry(id: nat, at: Time) returns (ok: bool)
      modifies this
      ensures ok <==> id < |old(jobs)| && Retryable(old(jobs)[id])
      ensures jobs == if ok then old(jobs)[id := Requeued(old(jobs)[id], at)] else old(jobs)
      ensures ok <==> && id < |old(jobs)| && old(jobs)[id].state in {Running, Cancelling}
                      && old(jobs)[id].attempts < old(jobs)[id].maxAttempts && !old(jobs)[id].cancelRequested
      ensures ok ==> jobs == old(jobs)[id := old(jobs)[id].(state := JobState.Queued, startedAt := None, lease := None,
                                                            owner := None, nextAttempt := Some(at))]
    {
      ok := id < |jobs| && Retryable(jobs[id]);
      if ok {
        jobs := jobs[id := Requeued(jobs[id], at).(cancelRequested := false)];
      }
    }

    method RequestCancel(id: nat) returns (found: bool)
      modifies this
      ensures found <==> id < |old(jobs)| && Active(old(jobs)[id].state)
      ensures jobs == if id < |old(jobs)| then old(jobs)[id := CancelAsked(old(jobs)[id])] else old(jobs)
      ensures found <==> id < |old(jobs)| && old(jobs)[id].state in {JobState.Queued, Running, Cancelling}
      ensures !found ==> jobs == old(jobs)
      ensures found ==> jobs == old(jobs)[id := old(jobs)[id].(cancelRequested := true,
                          state := if old(jobs)[id].state == JobState.Queued then JobState.Queued else Cancelling)]
    {
      found := id < |jobs| && Active(jobs[id].state);
      if found {
        var j := jobs[id];
        jobs := jobs[id := j.(cancelRequested := true, state := if j.state == Running then Cancelling else j.state)];
      }
    }

    /** `recover_stale_running_jobs`: select the stale rows, then update each. */
    method RecoverStale(now: Time, force: bool) returns (recovered: nat)
      modifies this
      ensures jobs == AllRecovered(old(jobs), now, force)
      ensures recovered == |set i | 0 <= i < |old(jobs)| && Stale(old(jobs)[i], now, force)|
      ensures |jobs| == |old(jobs)|
      ensures forall i | 0 <= i < |jobs| ::
                var j := old(jobs)[i];
                jobs[i] ==
                if !(j.state == Running &&
                     (|| force || (j.lease.Some? && j.lease.value < now)
                      || (j.lease.None? && j.startedAt.Some? && j.startedAt.value < now - 3600))) then j
                else if j.attempts >= (if j.maxAttempts == 0 then 3 else j.maxAttempts) then j.(state := Failed)
                else j.(state := JobState.Queued, startedAt := None, lease := None, owner := None, nextAttempt := Some(now + 5))
    {
      var rows: set<nat> := set i | 0 <= i < |jobs| && Stale(jobs[i], now, force);
      var todo := rows;
      recovered := 0;
      while todo != {}
        invariant todo <= rows && |jobs| == |old(jobs)|
        invariant recovered == |rows| - |todo|
        invariant forall i | 0 <= i < |jobs| ::
          jobs[i] == if i in rows && i !in todo then Recovered(old(jobs)[i], now, force) else old(jobs)[i]
        decreases todo
      {
        var i :| i in todo;
        var j := jobs[i];
        if j.attempts >= RecoveryLimit(j) {
          jobs := jobs[i := j.(state := Failed)];
        } else {
          jobs := jobs[i := Requeued(j, now + REQUEUE_DELAY)];
        }
        todo := todo - {i};
        recovered := recovered + 1;
      }
    }
  }
}
