/** Leases, heartbeats and periodic recovery over runs of the worker queue. */
module QueueLeases {
  import opened Wrappers
  import opened JobQueue
  import opened QueueRuns

  /** The worker, if any, whose step ends or requeues the job it holds. */
  function Ender(a: Action): Option<string> {
    match a
    case Refuse(w, _) => Some(w)
    case ConfirmStop(w, _) => Some(w)
    case End(w, _, _, _) => Some(w)
    case Requeue(w, _, _) => Some(w)
    case Fail(w, _) => Some(w)
    case _ => None
  }

  /** Is the action a heartbeat for the row, by a worker that holds it? */
  predicate BeatsFor(t: Sys, a: Action, id: nat) {
    a.Beat? && Held(Of(t, a.worker)) == Some(id)
  }

  function NextBeat(t: Sys, a: Action, id: nat, b: Time): Time {
    if BeatsFor(t, a, id) then a.now else b
  }

  /** When the row's last heartbeat of a run was; `b` is when the row was claimed. */
  function LastBeat(s: Sys, acts: seq<Action>, id: nat, b: Time): Time {
    if acts == [] then b
    else
      var n := |acts| - 1;
      NextBeat(Run(s, acts[..n]), acts[n], id, LastBeat(s, acts[..n], id, b))
  }

  /** The run of a row whose holder stays on the job: heartbeats ask for a lease of at
      least `L` (of exactly `L` if `exact`), every recovery is periodic and comes at
      most `L` after the last heartbeat, and no worker that holds the row ends it.
      Cancel requests, crashes and everything about other rows may happen at will. */
  predicate Attended(s: Sys, acts: seq<Action>, id: nat, b: Time, L: int, exact: bool) {
    forall n | 0 <= n < |acts| ::
      AttendedStep(Run(s, acts[..n]), acts[n], id, LastBeat(s, acts[..n], id, b), L, exact)
  }

  predicate AttendedStep(t: Sys, a: Action, id: nat, b: Time, L: int, exact: bool) {
    && (BeatsFor(t, a, id) ==> a.lease >= L && (exact ==> a.lease == L))
    && (a.Recover? ==> !a.force && a.now <= b + L)
    && (Ender(a).Some? ==> Held(Of(t, Ender(a).value)) != Some(id))
  }

  /** The row is with its owner, and its lease reaches `L` past the last heartbeat. */
  predicate Kept(jobs: seq<Job>, id: nat, owner: Option<string>, attempts: nat, b: Time, L: int, exact: bool) {
    && id < |jobs| && (jobs[id].state.Running? || jobs[id].state.Cancelling?)
    && jobs[id].owner == owner && jobs[id].attempts == attempts
    && (jobs[id].state.Running? ==>
        jobs[id].lease.Some? && jobs[id].lease.value >= b + L && (exact ==> jobs[id].lease.value == b + L))
  }

  lemma StepKept(s: Sys, a: Action, id: nat, owner: Option<string>, attempts: nat, b: Time, L: int, exact: bool)
    requires Kept(s.jobs, id, owner, attempts, b, L, exact) && AttendedStep(s, a, id, b, L, exact)
    ensures Kept(Step(s, a).jobs, id, owner, attempts, NextBeat(s, a, id, b), L, exact)
  {
    hide Enqueued, WorthRetrying, IsNext, Retryable;
    match a
    case Claim(w, i, now, lease, kinds) =>
      if IsNext(s.jobs, i, now, kinds) { NextIsQueued(s.jobs, i, now, kinds); }
    case Enqueue(r, now) => EnqueuedShape(s.jobs, r, now);
    case _ =>
  }

  lemma {:induction false} RunKept(s: Sys, acts: seq<Action>, id: nat, owner: Option<string>, attempts: nat,
                                   b: Time, L: int, exact: bool)
    requires Kept(s.jobs, id, owner, attempts, b, L, exact) && Attended(s, acts, id, b, L, exact)
    ensures Kept(Run(s, acts).jobs, id, owner, attempts, LastBeat(s, acts, id, b), L, exact)
  {
    if acts != [] {
      var n := |acts| - 1;
      assert forall m | 0 <= m < n :: acts[..n][..m] == acts[..m] && acts[..n][m] == acts[m];
      RunKept(s, acts[..n], id, owner, attempts, b, L, exact);
      assert AttendedStep(Run(s, acts[..n]), acts[n], id, LastBeat(s, acts[..n], id, b), L, exact);
      StepKept(Run(s, acts[..n]), acts[n], id, owner, attempts, LastBeat(s, acts[..n], id, b), L, exact);
    }
  }

  lemma ClaimKept(s: Sys, w: string, id: nat, now: Time, lease: int, kinds: Kinds, L: int, exact: bool)
    requires Of(s, w).Idle? && IsNext(s.jobs, id, now, kinds) && lease >= L && (exact ==> lease == L)
    ensures Kept(Step(s, Claim(w, id, now, lease, kinds)).jobs, id, Some(w), s.jobs[id].attempts + 1, now, L, exact)
  {
    hide IsNext;
    NextIsQueued(s.jobs, id, now, kinds);
  }

  /** From a claim on, over every run in which each periodic recovery comes at most `L`
      after the row's latest heartbeat: recovery never takes the row from its owner. No
      assumption is made about clocks; where they never run backwards, "at most `L`
      after some heartbeat" is the same thing. */
  lemma LeaseProtects(s: Sys, w: string, id: nat, now: Time, lease: int, kinds: Kinds, acts: seq<Action>, L: int)
    requires Of(s, w).Idle? && IsNext(s.jobs, id, now, kinds) && lease >= L
    requires Attended(Step(s, Claim(w, id, now, lease, kinds)), acts, id, now, L, false)
    ensures var t := Run(Step(s, Claim(w, id, now, lease, kinds)), acts);
            && id < |t.jobs| && t.jobs[id].owner == Some(w) && t.jobs[id].attempts == s.jobs[id].attempts + 1
            && (t.jobs[id].state.Running? || t.jobs[id].state.Cancelling?)
  {
    ClaimKept(s, w, id, now, lease, kinds, L, false);
    hide Step;
    RunKept(Step(s, Claim(w, id, now, lease, kinds)), acts, id, Some(w), s.jobs[id].attempts + 1, now, L, false);
  }

  /** And with leases of exactly `L`, the next recovery takes a running row if and only
      if it comes more than `L` after the latest heartbeat. */
  lemma RecoveryTakesIff(s: Sys, w: string, id: nat, now: Time, kinds: Kinds, acts: seq<Action>, L: int, later: Time)
    requires Of(s, w).Idle? && IsNext(s.jobs, id, now, kinds)
    requires var s1 := Step(s, Claim(w, id, now, L, kinds));
             Attended(s1, acts, id, now, L, true) && id < |Run(s1, acts).jobs| && Run(s1, acts).jobs[id].state == Running
    ensures var s1 := Step(s, Claim(w, id, now, L, kinds));
            var t := Run(s1, acts);
            var u := Step(t, Recover(later, false));
            && id < |u.jobs|
            && (u.jobs[id] != t.jobs[id] <==> later > LastBeat(s1, acts, id, now) + L)
            && (u.jobs[id] != t.jobs[id] ==> u.jobs[id].state != Running)
  {
    ClaimKept(s, w, id, now, L, kinds, L, true);
    var s1 := Step(s, Claim(w, id, now, L, kinds));
    hide Step, Run, Attended, LastBeat;
    RunKept(s1, acts, id, Some(w), s.jobs[id].attempts + 1, now, L, true);
    RecoverRow(Run(s1, acts), later, id);
    RecoveredIff(Run(s1, acts).jobs[id], later);
  }

  lemma RecoverRow(t: Sys, now: Time, id: nat)
    requires id < |t.jobs|
    ensures |Step(t, Recover(now, false)).jobs| == |t.jobs|
    ensures Step(t, Recover(now, false)).jobs[id] == Recovered(t.jobs[id], now, false)
  {
    hide Recovered;
  }

  lemma RecoveredIff(j: Job, now: Time)
    requires j.state == Running && j.lease.Some?
    ensures Recovered(j, now, false) != j <==> now > j.lease.value
    ensures now > j.lease.value ==> Recovered(j, now, false).state != Running
  {
  }
}
