/** What holds over every run of the worker queue. */
module QueueTheorems {
  import opened Wrappers
  import opened JobQueue
  import opened QueueRuns

  // ----- how often an executor starts -----

  predicate StartsInv(s: Sys) {
    && (forall n | 0 <= n < |s.starts| ::
          s.starts[n].0 < |s.jobs| && 1 <= s.starts[n].1 <= s.jobs[s.starts[n].0].attempts)
    && (forall m, n | 0 <= m < n < |s.starts| :: s.starts[m] != s.starts[n])
  }

  ghost predicate LocalsInv(s: Sys) {
    && (forall w :: !Of(s, w).Idle? ==>
          Of(s, w).id < |s.jobs| && 1 <= Of(s, w).job.attempts <= s.jobs[Of(s, w).id].attempts)
    && (forall w :: Of(s, w).Holding? ==> (Of(s, w).id, Of(s, w).job.attempts) !in s.starts)
    && (forall v, w :: v != w && Of(s, v).Holding? && Of(s, w).Holding? && Of(s, v).id == Of(s, w).id ==>
          Of(s, v).job.attempts != Of(s, w).job.attempts)
  }

  /** A worker's local state after a step that neither claims nor starts. */
  ghost predicate Shrinks(s: Sys, t: Sys) {
    forall w :: Of(t, w).Idle? ||
      (&& !Of(s, w).Idle? && Of(t, w).id == Of(s, w).id && Of(t, w).job == Of(s, w).job
       && (Of(t, w).Holding? ==> Of(s, w).Holding?))
  }

  lemma StepShrinks(s: Sys, a: Action)
    requires !a.Claim? && !a.CheckFlag?
    ensures Shrinks(s, Step(s, a)) && Step(s, a).starts == s.starts && Step(s, a).claims == s.claims
  {
    hide Enqueued, AllRecovered, WorthRetrying, Retryable, Marked, Beaten, CancelAsked, Requeued;
  }

  lemma ShrinkKeeps(s: Sys, t: Sys)
    requires StartsInv(s) && LocalsInv(s)
    requires Shrinks(s, t) && t.starts == s.starts && RowsStep(s.jobs, t.jobs)
    ensures StartsInv(t) && LocalsInv(t)
  {
    forall w | !Of(t, w).Idle?
      ensures Of(t, w).id < |t.jobs| && 1 <= Of(t, w).job.attempts <= t.jobs[Of(t, w).id].attempts
    {
      assert RowStep(s.jobs[Of(s, w).id], t.jobs[Of(s, w).id]);
    }
    forall n | 0 <= n < |t.starts| ensures t.starts[n].1 <= t.jobs[t.starts[n].0].attempts {
      assert RowStep(s.jobs[s.starts[n].0], t.jobs[s.starts[n].0]);
    }
  }

  lemma ClaimKeeps(s: Sys, w: string, id: nat, now: Time, lease: int, kinds: Kinds)
    requires StartsInv(s) && LocalsInv(s)
    ensures StartsInv(DoClaim(s, w, id, now, lease, kinds)) && LocalsInv(DoClaim(s, w, id, now, lease, kinds))
  {
    if Of(s, w).Idle? && IsNext(s.jobs, id, now, kinds) {
      var t := DoClaim(s, w, id, now, lease, kinds);
      hide IsNext, DoClaim;
      assert t.jobs == s.jobs[id := t.jobs[id]] && t.jobs[id].attempts == s.jobs[id].attempts + 1;
      assert Of(t, w) == Holding(id, t.jobs[id]);
      assert forall v | v != w :: Of(t, v) == Of(s, v);
      assert t.starts == s.starts;
      assert (id, t.jobs[id].attempts) !in s.starts;
    }
  }

  lemma CheckKeeps(s: Sys, w: string, readOk: bool)
    requires StartsInv(s) && LocalsInv(s)
    ensures StartsInv(DoCheckFlag(s, w, readOk)) && LocalsInv(DoCheckFlag(s, w, readOk))
  {
    if Of(s, w).Holding? {
      var t := DoCheckFlag(s, w, readOk);
      var p := (Of(s, w).id, Of(s, w).job.attempts);
      hide DoCheckFlag;
      assert t.jobs == s.jobs && forall v | v != w :: Of(t, v) == Of(s, v);
      assert t.starts == s.starts || t.starts == s.starts + [p];
      assert !Of(t, w).Holding? && Of(t, w).id == Of(s, w).id && Of(t, w).job == Of(s, w).job;
      assert p !in s.starts;
      forall m, n | 0 <= m < n < |t.starts| ensures t.starts[m] != t.starts[n] {
        if n == |s.starts| { assert t.starts[m] == s.starts[m] && s.starts[m] in s.starts; }
      }
    }
  }

  lemma StepStarts(s: Sys, a: Action)
    requires StartsInv(s) && LocalsInv(s)
    ensures StartsInv(Step(s, a)) && LocalsInv(Step(s, a))
  {
    hide StartsInv, LocalsInv, Shrinks, Change, Fresh, DoClaim, DoCheckFlag;
    match a
    case Claim(w, id, now, lease, kinds) => ClaimKeeps(s, w, id, now, lease, kinds);
    case CheckFlag(w, readOk) => CheckKeeps(s, w, readOk);
    case _ => OtherKeeps(s, a);
  }

  lemma OtherKeeps(s: Sys, a: Action)
    requires StartsInv(s) && LocalsInv(s) && !a.Claim? && !a.CheckFlag?
    ensures StartsInv(Step(s, a)) && LocalsInv(Step(s, a))
  {
    hide StartsInv, LocalsInv, Shrinks, Change, Fresh, Step, RowsChange, RowsStep;
    StepShrinks(s, a);
    StepChange(s, a);
    ChangeIsStep(s.jobs, Step(s, a).jobs);
    ShrinkKeeps(s, Step(s, a));
  }

  lemma {:induction false} RunStarts(acts: seq<Action>)
    ensures StartsInv(Run(EMPTY, acts)) && LocalsInv(Run(EMPTY, acts))
  {
    if acts != [] {
      RunStarts(acts[..|acts| - 1]);
      hide StartsInv, LocalsInv, Step;
      StepStarts(Run(EMPTY, acts[..|acts| - 1]), acts[|acts| - 1]);
    }
  }

  lemma ChangeIsStep(a: seq<Job>, b: seq<Job>)
    requires RowsChange(a, b)
    ensures RowsStep(a, b)
  {
    forall i | 0 <= i < |a| ensures RowStep(a[i], b[i]) {
      assert Change(a[i], b[i]);
    }
  }

  function StartCount(starts: seq<(nat, nat)>, id: nat): nat {
    if starts == [] then 0
    else StartCount(starts[..|starts| - 1], id) + if starts[|starts| - 1].0 == id then 1 else 0
  }

  /** The claim numbers under which a row's executor started. */
  function Numbers(starts: seq<(nat, nat)>, id: nat): (r: set<nat>)
    ensures forall k | k in r :: (id, k) in starts
  {
    if starts == [] then {}
    else
      var front, last := starts[..|starts| - 1], starts[|starts| - 1];
      assert last in starts;
      Numbers(front, id) + if last.0 == id then {last.1} else {}
  }

  lemma {:induction false} CountIsDistinct(starts: seq<(nat, nat)>, id: nat)
    requires forall m, n | 0 <= m < n < |starts| :: starts[m] != starts[n]
    ensures |Numbers(starts, id)| == StartCount(starts, id)
  {
    if starts != [] {
      var front, last := starts[..|starts| - 1], starts[|starts| - 1];
      CountIsDistinct(front, id);
      assert last !in front;
      assert last.0 == id ==> last.1 !in Numbers(front, id);
    }
  }

  lemma {:induction false} SmallSet(s: set<nat>, n: nat)
    requires forall k | k in s :: 1 <= k <= n
    ensures |s| <= n
  {
    if n == 0 {
      assert s == {};
    } else {
      SmallSet(s - {n}, n - 1);
    }
  }

  /** In every run the executor of a row starts at most as often as the row was
      claimed, which is at most its bound: `maxAttempts` whenever that is at least
      one, whatever retries, crashes and forced recoveries there are. */
  lemma StartsBounded(acts: seq<Action>, id: nat)
    requires id < |Run(EMPTY, acts).jobs|
    ensures var t := Run(EMPTY, acts);
            && StartCount(t.starts, id) <= t.jobs[id].attempts <= Bound(t.jobs[id])
            && (t.jobs[id].maxAttempts >= 1 ==> StartCount(t.starts, id) <= t.jobs[id].maxAttempts)
  {
    var t := Run(EMPTY, acts);
    hide Run;
    RunStarts(acts);
    RunRows(EMPTY, acts);
    CountIsDistinct(t.starts, id);
    SmallSet(Numbers(t.starts, id), t.jobs[id].attempts);
    assert RowInv(t.jobs[id]);
  }

  /** The bound is exact: a claimed row that a boot finds running is queued again as
      long as, and no longer than, it has been claimed less often than the bound. */
  lemma BoundIsExact(j: Job, now: Time, lease: int, w: string, later: Time)
    requires j.state.Queued? && RowInv(j)
    ensures var r := Recovered(Claimed(j, now, lease, w), later, true);
            && (r.state == Queued <==> j.attempts + 1 < Bound(j))
            && (r.state == Failed <==> j.attempts + 1 == Bound(j))
  {
  }

  // ----- the budget -----

  function Spent(jobs: seq<Job>): nat {
    if jobs == [] then 0 else Spent(jobs[..|jobs| - 1]) + jobs[|jobs| - 1].attempts
  }

  function Budget(jobs: seq<Job>): nat {
    if jobs == [] then 0 else Budget(jobs[..|jobs| - 1]) + Bound(jobs[|jobs| - 1])
  }

  lemma {:induction false} SpentWithin(jobs: seq<Job>)
    requires RowsInv(jobs)
    ensures Spent(jobs) <= Budget(jobs)
  {
    if jobs != [] {
      assert RowInv(jobs[|jobs| - 1]);
      SpentWithin(jobs[..|jobs| - 1]);
    }
  }

  lemma {:induction false} SpentSteady(a: seq<Job>, b: seq<Job>)
    requires |a| <= |b|
    requires forall i | 0 <= i < |a| :: a[i].attempts == b[i].attempts
    requires forall i | |a| <= i < |b| :: b[i].attempts == 0
    ensures Spent(a) == Spent(b)
    decreases |b|
  {
    if |a| < |b| {
      SpentSteady(a, b[..|b| - 1]);
    } else if a != [] {
      SpentSteady(a[..|a| - 1], b[..|b| - 1]);
    }
  }

  lemma {:induction false} SpentClaim(a: seq<Job>, id: nat, j: Job)
    requires id < |a| && j.attempts == a[id].attempts + 1
    ensures Spent(a[id := j]) == Spent(a) + 1
  {
    var b, n := a[id := j], |a| - 1;
    if id == n {
      assert b[..n] == a[..n];
    } else {
      SpentClaim(a[..n], id, j);
      assert b[..n] == a[..n][id := j];
    }
  }

  /** Every claim spends one unit of a finite budget and nothing gives it back, so a
      run over given rows makes at most `Budget` claims. */
  lemma {:induction false} ClaimsWithinBudget(acts: seq<Action>)
    ensures var t := Run(EMPTY, acts); t.claims == Spent(t.jobs) <= Budget(t.jobs)
  {
    RunRows(EMPTY, acts);
    SpentWithin(Run(EMPTY, acts).jobs);
    if acts != [] {
      var s, a := Run(EMPTY, acts[..|acts| - 1]), acts[|acts| - 1];
      ClaimsWithinBudget(acts[..|acts| - 1]);
      StepSpent(s, a);
    }
  }

  lemma StepSpent(s: Sys, a: Action)
    requires s.claims == Spent(s.jobs)
    ensures Step(s, a).claims == Spent(Step(s, a).jobs)
  {
    hide IsNext, Spent;
    if a.Claim? {
      if Of(s, a.worker).Idle? && IsNext(s.jobs, a.id, a.now, a.kinds) {
        NextIsQueued(s.jobs, a.id, a.now, a.kinds);
        SpentClaim(s.jobs, a.id, Claimed(s.jobs[a.id], a.now, a.lease, a.worker));
      }
    } else {
      var t := Step(s, a);
      StepSteady(s, a);
      assert t.claims == s.claims by {
        if !a.CheckFlag? { StepShrinks(s, a); }
      }
      hide Step;
      forall i | 0 <= i < |t.jobs| ensures t.jobs[i].attempts == if i < |s.jobs| then s.jobs[i].attempts else 0 {
        if i < |s.jobs| { assert Steady(s.jobs[i], t.jobs[i]); } else { assert Fresh(t.jobs[i]); }
      }
      SpentSteady(s.jobs, t.jobs);
    }
  }

  // ----- cancellation -----

  predicate ReadsOk(acts: seq<Action>) {
    forall a | a in acts :: a.CheckFlag? ==> a.readOk
  }

  lemma StepStopped(s: Sys, a: Action, id: nat, k: nat)
    requires id < |s.jobs| && s.jobs[id].cancelRequested
    requires a.CheckFlag? ==> a.readOk
    requires (id, k) in Step(s, a).starts
    ensures (id, k) in s.starts
  {
    hide DoClaim, IsNext, Claimed;
    if a.Claim? {
      assert Step(s, a).starts == s.starts by { ClaimStarts(s, a.worker, a.id, a.now, a.lease, a.kinds); }
    } else if !a.CheckFlag? {
      StepShrinks(s, a);
    }
  }

  lemma ClaimStarts(s: Sys, w: string, id: nat, now: Time, lease: int, kinds: Kinds)
    ensures DoClaim(s, w, id, now, lease, kinds).starts == s.starts
  {
  }

  /** Once a row's cancel flag is set, its executor never starts again, whoever holds
      or claims it later and however often recovery queues it again, provided the
      worker's read of the flag does not fail. */
  lemma {:induction false} CancelIsFinal(s: Sys, acts: seq<Action>, id: nat, k: nat)
    requires RowsInv(s.jobs) && id < |s.jobs| && s.jobs[id].cancelRequested && ReadsOk(acts)
    requires (id, k) in Run(s, acts).starts
    ensures (id, k) in s.starts
  {
    if acts != [] {
      var front := acts[..|acts| - 1];
      RunRows(s, front);
      var t := Run(s, front);
      assert RowStep(s.jobs[id], t.jobs[id]);
      StepStopped(t, acts[|acts| - 1], id, k);
      CancelIsFinal(s, front, id, k);
    }
  }

  /** In any reachable state, once cancelling an active row has been asked for, the row's
      executor never starts again in any continuation in which flag reads succeed. */
  lemma AskedIsFinal(before: seq<Action>, id: nat, acts: seq<Action>, k: nat)
    requires var s := Run(EMPTY, before);
             id < |s.jobs| && s.jobs[id].state in {Queued, Running, Cancelling}
    requires ReadsOk(acts) && (id, k) in Run(Step(Run(EMPTY, before), AskCancel(id)), acts).starts
    ensures (id, k) in Run(EMPTY, before).starts
  {
    var s := Run(EMPTY, before);
    var t := Step(s, AskCancel(id));
    RunRows(EMPTY, before);
    hide Run;
    assert t.jobs == s.jobs[id := CancelAsked(s.jobs[id])] && t.starts == s.starts;
    StepChange(s, AskCancel(id));
    forall i | 0 <= i < |t.jobs| ensures RowInv(t.jobs[i]) { assert RowInv(s.jobs[i]) && Change(s.jobs[i], t.jobs[i]); }
    hide Step;
    CancelIsFinal(t, acts, id, k);
  }

  /** The provision is needed: with the flag set, a held job's executor starts exactly
      when the read fails, since a failed read counts as "not asked". */
  lemma FlagReadDecides(s: Sys, w: string, readOk: bool)
    requires StartsInv(s) && LocalsInv(s)
    requires Of(s, w).Holding? && s.jobs[Of(s, w).id].cancelRequested
    ensures var t := Step(s, CheckFlag(w, readOk));
            && (Of(t, w).Executing? <==> !readOk)
            && ((Of(s, w).id, Of(s, w).job.attempts) in t.starts <==> !readOk)
  {
  }

  // ----- boot recovery -----

  /** Boot recovery: no row is left running; each that was is queued exactly when it
      has attempts left and failed otherwise; every other row is untouched. */
  lemma BootRecovery(acts: seq<Action>, now: Time, id: nat)
    requires id < |Run(EMPTY, acts).jobs|
    ensures var s := Run(EMPTY, acts);
            var t := Step(s, Recover(now, true));
            && |t.jobs| == |s.jobs| && t.jobs[id].state != Running
            && (s.jobs[id].state != Running ==> t.jobs[id] == s.jobs[id])
            && (s.jobs[id].state == Running ==>
                && t.jobs[id].state == (if s.jobs[id].attempts < Bound(s.jobs[id]) then Queued else Failed)
                && t.jobs[id].attempts == s.jobs[id].attempts)
  {
    var s := Run(EMPTY, acts);
    RunRows(EMPTY, acts);
    hide Run;
    assert RowInv(s.jobs[id]);
  }

  // ----- one active job per key -----

  predicate Managed(key: string) { key != "" && key != SCAN_KEY }

  predicate OnePerKey(jobs: seq<Job>) {
    forall i, k | 0 <= i < k < |jobs| ::
      Managed(jobs[i].dedupe) && Active(jobs[i].state) && Active(jobs[k].state) ==> jobs[i].dedupe != jobs[k].dedupe
  }

  lemma StepOnePerKey(s: Sys, a: Action)
    requires OnePerKey(s.jobs)
    ensures OnePerKey(Step(s, a).jobs)
  {
    var t := Step(s, a);
    StepChange(s, a);
    assert |t.jobs| > |s.jobs| ==> a.Enqueue? || a.InsertScan? by { GrowthIsInsert(s, a); }
    hide Step;
    forall i, k | 0 <= i < k < |t.jobs| && Managed(t.jobs[i].dedupe) && Active(t.jobs[i].state) && Active(t.jobs[k].state)
      ensures t.jobs[i].dedupe != t.jobs[k].dedupe
    {
      if k < |s.jobs| {
        assert Change(s.jobs[i], t.jobs[i]) && Change(s.jobs[k], t.jobs[k]);
      } else {
        NewKey(s, a, i, k);
      }
    }
  }

  lemma GrowthIsInsert(s: Sys, a: Action)
    ensures |Step(s, a).jobs| > |s.jobs| ==> a.Enqueue? || a.InsertScan?
  {
    hide IsNext, Claimed, WorthRetrying, Retryable, Recovered;
    if a.Claim? && IsNext(s.jobs, a.id, a.now, a.kinds) {
      NextIsQueued(s.jobs, a.id, a.now, a.kinds);
    }
  }

  lemma EnqueueIsNew(jobs: seq<Job>, r: Request, now: Time)
    requires r.dedupe != ""
    ensures var t := Enqueued(jobs, r, now).0;
            t == jobs || (&& t == jobs + [NewJob(r, now)]
                          && forall i | 0 <= i < |jobs| :: jobs[i].dedupe == r.dedupe ==> !Active(jobs[i].state))
  {
  }

  lemma NewKey(s: Sys, a: Action, i: nat, k: nat)
    requires a.Enqueue? || a.InsertScan?
    requires i < k && |s.jobs| <= k < |Step(s, a).jobs|
    requires Managed(Step(s, a).jobs[i].dedupe) && Active(Step(s, a).jobs[i].state)
    ensures Step(s, a).jobs[i].dedupe != Step(s, a).jobs[k].dedupe
  {
    if a.Enqueue? && a.request.dedupe != "" {
      EnqueueIsNew(s.jobs, a.request, a.now);
    }
  }

  lemma {:induction false} RunOnePerKey(s: Sys, acts: seq<Action>)
    requires OnePerKey(s.jobs)
    ensures OnePerKey(Run(s, acts).jobs)
  {
    if acts != [] {
      RunOnePerKey(s, acts[..|acts| - 1]);
      StepOnePerKey(Run(s, acts[..|acts| - 1]), acts[|acts| - 1]);
    }
  }

  /** Over every interleaving, a non-empty key that only `enqueue_job` uses has at most
      one queued, running or cancelling row. */
  lemma DedupeHolds(acts: seq<Action>)
    ensures OnePerKey(Run(EMPTY, acts).jobs)
  {
    RunOnePerKey(EMPTY, acts);
  }

  // ----- jobs left cancelling -----

  ghost predicate Orphan(s: Sys, id: nat) {
    id < |s.jobs| && s.jobs[id].state == Cancelling && forall w :: Held(Of(s, w)) != Some(id)
  }

  lemma StepOrphan(s: Sys, a: Action, id: nat)
    requires Orphan(s, id)
    ensures Orphan(Step(s, a), id)
  {
    var t := Step(s, a);
    OrphanRow(s, a, id);
    if a.Claim? {
      if IsNext(s.jobs, a.id, a.now, a.kinds) { NextIsQueued(s.jobs, a.id, a.now, a.kinds); }
      forall w ensures Held(Of(t, w)) != Some(id) { assert Held(Of(s, w)) != Some(id); }
    } else if a.CheckFlag? {
      forall w ensures Held(Of(t, w)) != Some(id) { assert Held(Of(s, w)) != Some(id); }
    } else {
      StepShrinks(s, a);
      hide Step;
      forall w ensures Held(Of(t, w)) != Some(id) { assert Held(Of(s, w)) != Some(id); }
    }
  }

  lemma OrphanRow(s: Sys, a: Action, id: nat)
    requires Orphan(s, id)
    ensures |s.jobs| <= |Step(s, a).jobs| && Step(s, a).jobs[id].state == Cancelling
  {
    hide IsNext, WorthRetrying, Retryable, Enqueued;
    match a
    case Claim(w, i, now, lease, kinds) =>
      if IsNext(s.jobs, i, now, kinds) { NextIsQueued(s.jobs, i, now, kinds); }
    case Enqueue(r, now) => EnqueuedShape(s.jobs, r, now);
    case Refuse(w, _) => assert Held(Of(s, w)) != Some(id);
    case ConfirmStop(w, _) => assert Held(Of(s, w)) != Some(id);
    case Beat(w, _, _) => assert Held(Of(s, w)) != Some(id);
    case End(w, _, _, _) => assert Held(Of(s, w)) != Some(id);
    case Requeue(w, _, _) => assert Held(Of(s, w)) != Some(id);
    case Fail(w, _) => assert Held(Of(s, w)) != Some(id);
    case _ =>
  }

  /** No run whatever, with any number of boots and recoveries, ever moves an orphan out
      of `cancelling`. */
  lemma {:induction false} OrphanForever(s: Sys, acts: seq<Action>, id: nat)
    requires Orphan(s, id)
    ensures Orphan(Run(s, acts), id)
  {
    if acts != [] {
      OrphanForever(s, acts[..|acts| - 1], id);
      StepOrphan(Run(s, acts[..|acts| - 1]), acts[|acts| - 1], id);
    }
  }

  // ----- how a row moves -----

  /** Whose step, and which, took the row from one state to another. */
  predicate Moved(s: Sys, a: Action, id: nat, to: JobState)
    requires id < |s.jobs|
  {
    var j := s.jobs[id];
    match a
    case AskCancel(i) => i == id && j.state == Running && to == Cancelling
    case Claim(w, i, now, _, _) =>
      && i == id && j.state == Queued && to == Running && Of(s, w).Idle?
      && (j.nextAttempt.None? || j.nextAttempt.value <= now)
    case Recover(now, force) =>
      && j.state == Running
      && (|| force || (j.lease.Some? && j.lease.value < now)
          || (j.lease.None? && j.startedAt.Some? && j.startedAt.value < now - 3600))
      && to == if j.attempts >= (if j.maxAttempts == 0 then 3 else j.maxAttempts) then Failed else Queued
    case Refuse(w, ok) => ok && Of(s, w).Holding? && Of(s, w).id == id && to == Failed
    case ConfirmStop(w, ok) => ok && Of(s, w).Stopping? && Of(s, w).id == id && to == Cancelled
    case End(w, ending, _, ok) =>
      && ok && Of(s, w).Executing? && Of(s, w).id == id
      && ((ending == Success && to == Completed) || (ending == Stopped && to == Cancelled))
    case Requeue(w, _, ok) =>
      && ok && Of(s, w).Retrying? && Of(s, w).id == id && to == Queued
      && j.state in {Running, Cancelling} && j.attempts < j.maxAttempts && !j.cancelRequested
    case Fail(w, ok) => ok && Of(s, w).Failing? && Of(s, w).id == id && to == Failed
    case _ => false
  }

  /** Every change of a row's state in any step is one of these: a claim when the row is
      due, a cancel request, recovery of a stale row, or a step of a worker that holds it. */
  lemma RowMoves(s: Sys, a: Action, id: nat)
    requires id < |s.jobs|
    ensures id < |Step(s, a).jobs|
    ensures Step(s, a).jobs[id].state != s.jobs[id].state ==> Moved(s, a, id, Step(s, a).jobs[id].state)
    ensures Step(s, a).jobs[id].nextAttempt != s.jobs[id].nextAttempt ==>
              Step(s, a).jobs[id].nextAttempt == Some(if a.Requeue? then a.at else if a.Recover? then a.now + 5 else 0)
  {
    hide Enqueued, WorthRetrying;
    match a
    case Enqueue(r, now) => EnqueuedShape(s.jobs, r, now);
    case _ =>
  }

  /** When an execution that failed is tried again: only for a transient error, a kind of
      job that is retried, an attempt left, and no cancel seen. Any other failure is about
      to be recorded, and nothing is written yet. */
  lemma RetriedIff(s: Sys, w: string, id: nat, job: Job, ending: Ending, readOk: bool, ok: bool)
    requires id < |s.jobs| && Of(s, w) == Executing(id, job) && ending.Error?
    ensures var t := Step(s, End(w, ending, readOk, ok));
            && t.jobs == s.jobs && (Of(t, w) == Retrying(id, job) || Of(t, w) == Failing(id, job))
            && (Of(t, w).Retrying? <==>
                && ending.transient && !(readOk && s.jobs[id].cancelRequested)
                && job.kind in {"tidal_grab", "sab_usenet_grab", "qbittorrent_torrent_grab", "promote_import", "retry_import"}
                && job.attempts < (if job.maxAttempts == 0 then 1 else job.maxAttempts))
  {
    RetryKinds(job.kind);
    hide Enqueued, IsNext, Retryable, AllRecovered, MarkRow;
  }

  lemma RetryKinds(kind: string)
    ensures kind in RETRY_KINDS <==>
            kind in {"tidal_grab", "sab_usenet_grab", "qbittorrent_torrent_grab", "promote_import", "retry_import"}
  {
  }
}
