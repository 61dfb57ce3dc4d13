/** When a dedupe key can be used again after a restart. */
module QueueKeys {
  import opened Wrappers
  import opened JobQueue
  import opened QueueRuns
  import opened QueueTheorems
  import Worker

  const ALL := Kinds([], [])

  // ----- a blocked key -----

  predicate HasKey(jobs: seq<Job>, from: nat, key: string) {
    exists i | from <= i < |jobs| :: jobs[i].dedupe == key
  }

  lemma BlockedEnqueue(jobs: seq<Job>, id: nat, r: Request, now: Time)
    requires id < |jobs| && jobs[id].dedupe != "" && Active(jobs[id].state)
    requires r.dedupe == jobs[id].dedupe
    ensures Enqueued(jobs, r, now).0 == jobs
  {
  }

  lemma StepAddsNoRow(s: Sys, a: Action, id: nat, i: nat)
    requires id < |s.jobs| && Managed(s.jobs[id].dedupe) && Active(s.jobs[id].state)
    requires |s.jobs| <= i < |Step(s, a).jobs|
    ensures Step(s, a).jobs[i].dedupe != s.jobs[id].dedupe
  {
    GrowthIsInsert(s, a);
    if a.Enqueue? {
      EnqueuedShape(s.jobs, a.request, a.now);
      if a.request.dedupe == s.jobs[id].dedupe { BlockedEnqueue(s.jobs, id, a.request, a.now); }
    }
    hide Enqueued;
  }

  /** While an orphan is there, every request with its key is handed the dead row. */
  lemma OrphanBlocksKey(s: Sys, acts: seq<Action>, id: nat, r: Request, now: Time)
    requires Orphan(s, id) && OnePerKey(s.jobs)
    requires Managed(s.jobs[id].dedupe) && RowsInv(s.jobs)
    requires r.dedupe == s.jobs[id].dedupe && r.jid != "" && r.kind != ""
    ensures Enqueued(Run(s, acts).jobs, r, now) == (Run(s, acts).jobs, Some(id))
  {
    OrphanForever(s, acts, id);
    RunOnePerKey(s, acts);
    RunRows(s, acts);
    var jobs := Run(s, acts).jobs;
    assert RowStep(s.jobs[id], jobs[id]);
    var f := FindActive(jobs, r.dedupe);
    assert f.Some? && id <= f.value;
    assert !(id < f.value);
  }

  /** And its key is never given a row again. */
  lemma {:induction false} OrphanAddsNoRow(s: Sys, acts: seq<Action>, id: nat)
    requires Orphan(s, id) && Managed(s.jobs[id].dedupe) && RowsInv(s.jobs)
    ensures !HasKey(Run(s, acts).jobs, |s.jobs|, s.jobs[id].dedupe)
  {
    if acts != [] {
      var front, a := acts[..|acts| - 1], acts[|acts| - 1];
      var t := Run(s, front);
      OrphanAddsNoRow(s, front, id);
      OrphanForever(s, front, id);
      RunRows(s, front);
      assert RowStep(s.jobs[id], t.jobs[id]);
      StepChange(t, a);
      forall i | |s.jobs| <= i < |Step(t, a).jobs| ensures Step(t, a).jobs[i].dedupe != s.jobs[id].dedupe {
        if i < |t.jobs| {
          assert Change(t.jobs[i], Step(t, a).jobs[i]);
        } else {
          StepAddsNoRow(t, a, id, i);
        }
      }
    }
  }

  // ----- draining the queue -----

  /** Some row is first by priority and age among the eligible ones. */
  lemma {:induction false} NextExists(jobs: seq<Job>, n: nat, now: Time, kinds: Kinds) returns (r: Option<nat>)
    requires n <= |jobs|
    ensures r.None? ==> forall k | 0 <= k < n :: !Eligible(jobs[k], now, kinds)
    ensures r.Some? ==> r.value < n && Eligible(jobs[r.value], now, kinds)
    ensures r.Some? ==> forall k | 0 <= k < n :: Eligible(jobs[k], now, kinds) ==> Before(jobs[r.value], jobs[k])
  {
    if n == 0 { return None; }
    r := NextExists(jobs, n - 1, now, kinds);
    if Eligible(jobs[n - 1], now, kinds) && (r.None? || !Before(jobs[r.value], jobs[n - 1])) {
      r := Some(n - 1);
    }
  }

  /** An execution in which every call succeeds. */
  const FINE := Worker.World(true, Success, true, true, true, true, true, 0, 0, 0)

  function TakeActs(s: Sys, j: nat, now: Time): seq<Action>
    requires j < |s.jobs|
  {
    var row := Claimed(s.jobs[j], now, 60, "w");
    [Claim("w", j, now, 60, ALL)] + Worker.JobActs(row, row, "w", FINE)
  }

  /** An idle worker can take the next row to its end, and touches no other. */
  lemma Take(s: Sys, j: nat, now: Time)
    requires Of(s, "w").Idle? && IsNext(s.jobs, j, now, ALL)
    ensures var t := Run(s, TakeActs(s, j, now));
            && Of(t, "w").Idle? && |t.jobs| == |s.jobs| && !Active(t.jobs[j].state) && t.jobs[j].dedupe == s.jobs[j].dedupe
            && forall k | 0 <= k < |s.jobs| && k != j :: t.jobs[k] == s.jobs[k]
  {
    var a := Claim("w", j, now, 60, ALL);
    var row := Claimed(s.jobs[j], now, 60, "w");
    var s1 := Step(s, a);
    assert s1.jobs == s.jobs[j := row] && Of(s1, "w") == Holding(j, row);
    Worker.RunSnoc(s, [], a);
    assert [] + [a] == [a];
    hide Step, IsNext;
    Worker.RunAppend(s, [a], Worker.JobActs(row, row, "w", FINE));
    Worker.JobRuns(s1, "w", j, row, FINE);
    hide Run;
    assert !Active(Worker.Left(row, row, FINE).state);
  }

  function QueuedRows(jobs: seq<Job>): set<nat> {
    set i | 0 <= i < |jobs| && jobs[i].state.Queued?
  }

  /** Rows only end: a later table in which some queued rows have ended. */
  predicate Drained(a: seq<Job>, b: seq<Job>) {
    |a| == |b| && forall k | 0 <= k < |a| ::
      b[k] == a[k] || (a[k].state.Queued? && !Active(b[k].state) && b[k].dedupe == a[k].dedupe)
  }

  lemma FewerQueued(a: seq<Job>, b: seq<Job>, j: nat)
    requires j < |a| == |b| && a[j].state.Queued? && !Active(b[j].state)
    requires forall k | 0 <= k < |a| && k != j :: b[k] == a[k]
    ensures |QueuedRows(b)| < |QueuedRows(a)|
  {
    assert j in QueuedRows(a) && QueuedRows(b) == QueuedRows(a) - {j};
  }

  /** A queued row can be brought to its end, whatever stands before it. */
  lemma {:induction false} Drain(s: Sys, i: nat, now: Time) returns (more: seq<Action>)
    requires Of(s, "w").Idle? && i < |s.jobs| && s.jobs[i].state.Queued?
    requires s.jobs[i].nextAttempt.Some? ==> s.jobs[i].nextAttempt.value <= now
    ensures Drained(s.jobs, Run(s, more).jobs) && !Active(Run(s, more).jobs[i].state)
    decreases |QueuedRows(s.jobs)|
  {
    assert Eligible(s.jobs[i], now, ALL);
    var r := NextExists(s.jobs, |s.jobs|, now, ALL);
    var j := r.value;
    Take(s, j, now);
    var acts := TakeActs(s, j, now);
    var t := Run(s, acts);
    more := acts;
    if j != i {
      FewerQueued(s.jobs, t.jobs, j);
      hide Run, IsNext, QueuedRows, TakeActs;
      var rest := Drain(t, i, now);
      Worker.RunAppend(s, acts, rest);
      more := acts + rest;
    }
  }

  lemma NoneActive(jobs: seq<Job>, key: string, r: Request, now: Time)
    requires forall k | 0 <= k < |jobs| :: jobs[k].dedupe == key ==> !Active(jobs[k].state)
    requires r.dedupe == key && r.jid != "" && r.kind != ""
    ensures Enqueued(jobs, r, now).0 == jobs + [NewJob(r, now)]
  {
  }

  /** With no active row of a key, a request adds one. */
  lemma FreeKey(s: Sys, more: seq<Action>, key: string)
    requires forall k | 0 <= k < |Run(s, more).jobs| :: Run(s, more).jobs[k].dedupe == key ==> !Active(Run(s, more).jobs[k].state)
    requires |Run(s, more).jobs| == |s.jobs|
    ensures exists acts :: HasKey(Run(s, acts).jobs, |s.jobs|, key)
  {
    var r := Request("j", "k", key, 0, 1);
    NoneActive(Run(s, more).jobs, key, r, 0);
    Worker.RunSnoc(s, more, Enqueue(r, 0));
    var jobs := Run(s, more + [Enqueue(r, 0)]).jobs;
    assert jobs[|s.jobs|].dedupe == key;
  }

  function Rebooted(s: Sys, now: Time): Sys { Step(Step(s, Crash), Recover(now, true)) }

  /** The state of every row after a crash and boot recovery. */
  lemma RebootedRow(s: Sys, now: Time, i: nat)
    requires i < |s.jobs| && RowsInv(s.jobs)
    ensures var t := Rebooted(s, now);
            && |t.jobs| == |s.jobs| && t.jobs[i].dedupe == s.jobs[i].dedupe && t.locals == map[]
            && (t.jobs[i].state == Cancelling <==> s.jobs[i].state == Cancelling)
            && t.jobs[i].state != Running
            && (Active(t.jobs[i].state) ==> Active(s.jobs[i].state)) && RowInv(t.jobs[i])
  {
    assert RowInv(s.jobs[i]);
  }

  predicate CancellingKey(jobs: seq<Job>, key: string) {
    exists i | 0 <= i < |jobs| :: jobs[i].state == Cancelling && jobs[i].dedupe == key
  }

  /** Once the only active row of a key is done, none is left. */
  lemma LastIsDone(a: seq<Job>, b: seq<Job>, i: nat, key: string)
    requires OnePerKey(a) && Managed(key) && Drained(a, b) && i < |a|
    requires a[i].dedupe == key && Active(a[i].state) && !Active(b[i].state)
    ensures forall k | 0 <= k < |b| :: b[k].dedupe == key ==> !Active(b[k].state)
  {
  }

  lemma KeyComesFree(s: Sys, now: Time, key: string)
    requires RowsInv(s.jobs) && OnePerKey(s.jobs) && Managed(key) && !CancellingKey(s.jobs, key)
    ensures exists acts :: HasKey(Run(Rebooted(s, now), acts).jobs, |s.jobs|, key)
  {
    var t := Rebooted(s, now);
    StepOnePerKey(s, Crash);
    StepOnePerKey(Step(s, Crash), Recover(now, true));
    assert |t.jobs| == |s.jobs| && t.locals == map[] && OnePerKey(t.jobs);
    hide Rebooted, RowsInv, OnePerKey, Step, Drained;
    if i :| 0 <= i < |t.jobs| && Active(t.jobs[i].state) && t.jobs[i].dedupe == key {
      RebootedRow(s, now, i);
      var due := if t.jobs[i].nextAttempt.Some? then t.jobs[i].nextAttempt.value else 0;
      var more := Drain(t, i, due);
      LastIsDone(t.jobs, Run(t, more).jobs, i, key);
      DrainedSize(t.jobs, Run(t, more).jobs);
      FreeKey(t, more, key);
    } else {
      FreeKey(t, [], key);
    }
  }

  lemma DrainedSize(a: seq<Job>, b: seq<Job>)
    requires Drained(a, b)
    ensures |a| == |b|
  {
  }

  /** In any reachable state, after a crash and boot recovery: some continuation gives a
      managed key a new row if and only if the crash left no cancelling row with that
      key. Otherwise every later request with the key is handed the dead row. */
  lemma NewRowIffNoCancelling(acts: seq<Action>, now: Time, key: string)
    requires Managed(key)
    ensures var s, t := Run(EMPTY, acts), Rebooted(Run(EMPTY, acts), now);
            (exists more :: HasKey(Run(t, more).jobs, |s.jobs|, key)) <==> !CancellingKey(s.jobs, key)
  {
    var s := Run(EMPTY, acts);
    RunRows(EMPTY, acts);
    DedupeHolds(acts);
    if CancellingKey(s.jobs, key) {
      var i :| 0 <= i < |s.jobs| && s.jobs[i].state == Cancelling && s.jobs[i].dedupe == key;
      var t := Rebooted(s, now);
      forall k | 0 <= k < |s.jobs| ensures |t.jobs| == |s.jobs| && RowInv(t.jobs[k]) { RebootedRow(s, now, k); }
      RebootedRow(s, now, i);
      hide Rebooted;
      forall more ensures !HasKey(Run(t, more).jobs, |s.jobs|, key) {
        OrphanAddsNoRow(t, more, i);
      }
    } else {
      KeyComesFree(s, now, key);
    }
  }
}
