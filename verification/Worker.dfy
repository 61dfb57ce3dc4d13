/** `_execute_job` of app/worker.py over the jobs table. What the outside decides fixes
    the calls it makes, and each call is one step of its worker in QueueRuns. */
module Worker {
  import opened Wrappers
  import opened JobQueue
  import opened QueueRuns

  /** What happens during one execution: is an executor registered, how does it end,
      and which database calls succeed. */
  datatype World = World(
    registered: bool, ending: Ending,
    flagReadOk: bool, beatOk: bool, endReadOk: bool, retryOk: bool, markOk: bool,
    now: Time, lease: int, retryAt: Time)

  /** Was the cancel flag seen before the executor was started? */
  predicate Seen(row: Job, x: World) { x.flagReadOk && row.cancelRequested }

  /** Is the executor run at all? */
  predicate Starts(row: Job, x: World) { x.registered && !Seen(row, x) }

  /** Is the job given another try by this execution? */
  predicate Retries(row: Job, job: Job, x: World) {
    && x.ending.Error? && !(x.endReadOk && row.cancelRequested) && WorthRetrying(job, x.ending.transient)
    && x.retryOk && Retryable(row)
  }

  /** The state that an execution records for a job it does not requeue. */
  function Verdict(row: Job, x: World): JobState {
    if !x.registered then Failed
    else if Seen(row, x) then Cancelled
    else
      match x.ending
      case Success => Completed
      case Stopped => Cancelled
      case Error(_) => Failed
  }

  /** The same for a whole execution, in terms of the job: it ran, it failed for a passing
      reason, its kind is retried, attempts are left, and nothing says that it is to stop. */
  predicate Again(row: Job, job: Job, x: World) {
    && x.registered && !(x.flagReadOk && row.cancelRequested)
    && x.ending == Error(true) && !(x.endReadOk && row.cancelRequested) && x.retryOk
    && job.kind in {"tidal_grab", "sab_usenet_grab", "qbittorrent_torrent_grab", "promote_import", "retry_import"}
    && job.attempts < (if job.maxAttempts == 0 then 1 else job.maxAttempts)
    && row.state in {Running, Cancelling} && row.attempts < row.maxAttempts && !row.cancelRequested
  }

  lemma AgainIs(row: Job, job: Job, x: World)
    ensures Again(row, job, x) <==> Starts(row, x) && Retries(row, job, x)
  {
    assert job.kind in RETRY_KINDS <==>
           job.kind in {"tidal_grab", "sab_usenet_grab", "qbittorrent_torrent_grab", "promote_import", "retry_import"};
  }

  lemma LeftState(row: Job, job: Job, x: World)
    ensures var j := Left(row, job, x);
            && j.state == (if !x.markOk && !Again(row, job, x) then row.state
                           else if !x.registered then Failed
                           else if x.flagReadOk && row.cancelRequested then Cancelled
                           else if x.ending.Success? then Completed
                           else if x.ending.Stopped? then Cancelled
                           else if Again(row, job, x) then Queued
                           else Failed)
            && j.attempts == row.attempts && j.cancelRequested == row.cancelRequested
            && (Again(row, job, x) ==>
                j == row.(state := Queued, startedAt := None, lease := None, owner := None, nextAttempt := Some(x.retryAt)))
  {
    AgainIs(row, job, x);
    assert Again(row, job, x) ==> x.ending.Error?;
    hide Again, Retries;
  }

  /** The row that an execution leaves, given the row and the job it was handed. */
  function Left(row: Job, job: Job, x: World): Job {
    var kept := if Starts(row, x) && x.beatOk then Beaten(row, x.now, x.lease) else row;
    if Starts(row, x) && Retries(row, job, x) then Requeued(kept, x.retryAt)
    else if x.markOk then Marked(kept, Verdict(row, x))
    else kept
  }

  /** The calls after the executor has ended. */
  function EndActs(row: Job, job: Job, w: string, x: World): seq<Action> {
    var asked := x.endReadOk && row.cancelRequested;
    [End(w, x.ending, x.endReadOk, x.markOk)] +
    if !x.ending.Error? then []
    else if asked || !WorthRetrying(job, x.ending.transient) then [Fail(w, x.markOk)]
    else [Requeue(w, x.retryAt, x.retryOk)] + if Retries(row, job, x) then [] else [Fail(w, x.markOk)]
  }

  /** The calls up to the executor's start. */
  function Opening(w: string, x: World): seq<Action> {
    [CheckFlag(w, x.flagReadOk)] + if x.beatOk then [Beat(w, x.now, x.lease)] else []
  }

  /** All calls of an execution, in order, as steps of worker `w`. */
  function JobActs(row: Job, job: Job, w: string, x: World): seq<Action> {
    if !x.registered then [Refuse(w, x.markOk)]
    else if Seen(row, x) then [CheckFlag(w, x.flagReadOk), ConfirmStop(w, x.markOk)]
    else Opening(w, x) + EndActs(row, job, w, x)
  }

  lemma RunSnoc(s: Sys, acts: seq<Action>, a: Action)
    ensures Run(s, acts + [a]) == Step(Run(s, acts), a)
  {
    assert (acts + [a])[..|acts|] == acts;
  }

  method MarkIf(table: JobTable, id: nat, state: JobState, ok: bool)
    requires id < |table.jobs|
    modifies table
    ensures table.jobs == if ok then old(table.jobs)[id := Marked(old(table.jobs)[id], state)] else old(table.jobs)
  {
    if ok { table.Mark(id, state); }
  }

  /** The steps that end a job in a state. */
  lemma MarkSteps(s: Sys, w: string, id: nat, job: Job, ok: bool)
    requires id < |s.jobs|
    ensures Of(s, w) == Holding(id, job) ==>
              Step(s, Refuse(w, ok)) == Set(MarkRow(s, id, Failed, ok), w, Idle)
    ensures Of(s, w) == Stopping(id, job) ==>
              Step(s, ConfirmStop(w, ok)) == Set(MarkRow(s, id, Cancelled, ok), w, Idle)
    ensures Of(s, w) == Failing(id, job) ==>
              Step(s, Fail(w, ok)) == Set(MarkRow(s, id, Failed, ok), w, Idle)
  {
    hide MarkRow, IsNext, WorthRetrying, Retryable, Enqueued, AllRecovered;
  }

  lemma StartSteps(s: Sys, w: string, id: nat, job: Job, x: World)
    requires id < |s.jobs| && Of(s, w) == Holding(id, job)
    ensures var t := Step(s, CheckFlag(w, x.flagReadOk));
            && t.jobs == s.jobs
            && Of(t, w) == if x.flagReadOk && s.jobs[id].cancelRequested then Stopping(id, job) else Executing(id, job)
  {
    hide IsNext, WorthRetrying, Retryable, Enqueued, AllRecovered;
  }

  lemma BeatSteps(s: Sys, w: string, id: nat, job: Job, x: World)
    requires id < |s.jobs| && Of(s, w) == Executing(id, job)
    ensures var t := Step(s, Beat(w, x.now, x.lease));
            Of(t, w) == Of(s, w) && t.jobs == s.jobs[id := Beaten(s.jobs[id], x.now, x.lease)]
  {
    hide IsNext, WorthRetrying, Retryable, Enqueued, AllRecovered, Beaten;
  }

  lemma EndSteps(s: Sys, w: string, id: nat, job: Job, x: World)
    requires id < |s.jobs| && Of(s, w) == Executing(id, job)
    ensures var t := Step(s, End(w, x.ending, x.endReadOk, x.markOk));
            match x.ending
            case Success => t == Set(MarkRow(s, id, Completed, x.markOk), w, Idle)
            case Stopped => t == Set(MarkRow(s, id, Cancelled, x.markOk), w, Idle)
            case Error(transient) =>
              && t.jobs == s.jobs
              && Of(t, w) == (if !(x.endReadOk && s.jobs[id].cancelRequested) && WorthRetrying(job, transient)
                              then Retrying(id, job) else Failing(id, job))
  {
    hide IsNext, WorthRetrying, Retryable, Enqueued, AllRecovered, MarkRow;
  }

  lemma RetrySteps(s: Sys, w: string, id: nat, job: Job, x: World)
    requires id < |s.jobs| && Of(s, w) == Retrying(id, job)
    ensures var t := Step(s, Requeue(w, x.retryAt, x.retryOk));
            if x.retryOk && Retryable(s.jobs[id])
            then Of(t, w) == Idle && t.jobs == s.jobs[id := Requeued(s.jobs[id], x.retryAt)]
            else Of(t, w) == Failing(id, job) && t.jobs == s.jobs
  {
    hide IsNext, WorthRetrying, Retryable, Enqueued, AllRecovered, Requeued;
  }

  lemma MarkRowIs(s: Sys, w: string, id: nat, state: JobState, ok: bool)
    requires id < |s.jobs|
    ensures var t := Set(MarkRow(s, id, state, ok), w, Idle);
            && t.jobs == (if ok then s.jobs[id := Marked(s.jobs[id], state)] else s.jobs)
            && Of(t, w) == Idle
  {
  }

  /** What one execution does to everything but its row: other workers are left alone,
      and the start of the executor is recorded exactly when it was run. */
  predicate OnlyWorker(s: Sys, t: Sys, w: string, started: seq<(nat, nat)>) {
    && t.locals == s.locals[w := Idle] && t.claims == s.claims
    && t.starts == s.starts + started
  }

  lemma LocalsAfter(s: Sys, w: string, a: Action)
    requires a.CheckFlag? || a.Refuse? || a.ConfirmStop? || a.Beat? || a.End? || a.Requeue? || a.Fail?
    requires a.worker == w && w in s.locals
    ensures var t := Step(s, a);
            && t.claims == s.claims && t.locals == s.locals[w := Of(t, w)]
            && t.starts == s.starts + (if a.CheckFlag? && Of(s, w).Holding? && Of(t, w).Executing?
                                       then [(Of(s, w).id, Of(s, w).job.attempts)] else [])
  {
    hide IsNext, WorthRetrying, Retryable, Enqueued, AllRecovered, Beaten, Marked, Requeued;
  }

  /** One job from its claim to its end. The row is left as `Left` says and no other row
      changes; the machine reaches the same table by the steps `JobActs` of this worker,
      ends with the worker idle, and has recorded a start exactly when there was one. */
  method ExecuteJob(table: JobTable, ghost s: Sys, w: string, id: nat, job: Job, x: World)
    requires table.jobs == s.jobs && id < |s.jobs| && Of(s, w) == Holding(id, job)
    modifies table
    ensures table.jobs == s.jobs[id := Left(s.jobs[id], job, x)]
    ensures var row := s.jobs[id];
            table.jobs[id].state ==
            if !x.markOk && !Again(row, job, x) then row.state
            else if !x.registered then Failed
            else if x.flagReadOk && row.cancelRequested then Cancelled
            else if x.ending.Success? then Completed
            else if x.ending.Stopped? then Cancelled
            else if Again(row, job, x) then Queued
            else Failed
    ensures table.jobs[id].attempts == s.jobs[id].attempts && table.jobs[id].cancelRequested == s.jobs[id].cancelRequested
    ensures Again(s.jobs[id], job, x) ==>
              table.jobs[id] == s.jobs[id].(state := Queued, startedAt := None, lease := None, owner := None, nextAttempt := Some(x.retryAt))
    ensures Run(s, JobActs(s.jobs[id], job, w, x)).jobs == table.jobs
    ensures OnlyWorker(s, Run(s, JobActs(s.jobs[id], job, w, x)), w,
                       if Starts(s.jobs[id], x) then [(id, job.attempts)] else [])
  {
    ghost var row := s.jobs[id];
    JobRuns(s, w, id, job, x);
    LeftState(row, job, x);
    hide Again;
    hide Run, OnlyWorker, Marked, WorthRetrying, Retryable, Beaten, Requeued;
    if !x.registered {
      MarkIf(table, id, Failed, x.markOk);
      return;
    }
    if x.flagReadOk && table.jobs[id].cancelRequested {
      MarkIf(table, id, Cancelled, x.markOk);
      return;
    }
    if x.beatOk { table.Heartbeat(id, x.now, x.lease); }
    BeatKeeps(row, x.now, x.lease);
    Conclude(table, id, row, job, x);
  }

  lemma BeatKeeps(row: Job, now: Time, lease: int)
    ensures Beaten(row, now, lease).cancelRequested == row.cancelRequested
    ensures Retryable(Beaten(row, now, lease)) == Retryable(row)
  {
  }

  /** How the executor ended, and what is written about it. */
  method Conclude(table: JobTable, id: nat, ghost row: Job, job: Job, x: World)
    requires id < |table.jobs| && Starts(row, x)
    requires table.jobs[id].cancelRequested == row.cancelRequested && Retryable(table.jobs[id]) == Retryable(row)
    modifies table
    ensures table.jobs == old(table.jobs)[id :=
              if Retries(row, job, x) then Requeued(old(table.jobs)[id], x.retryAt)
              else if x.markOk then Marked(old(table.jobs)[id], Verdict(row, x))
              else old(table.jobs)[id]]
  {
    hide Marked, WorthRetrying, Retryable, Requeued;
    match x.ending {
      case Success => MarkIf(table, id, Completed, x.markOk);
      case Stopped => MarkIf(table, id, Cancelled, x.markOk);
      case Error(transient) =>
        var asked := x.endReadOk && table.jobs[id].cancelRequested;
        if !asked && WorthRetrying(job, transient) {
          var retried := false;
          if x.retryOk { retried := table.ScheduleRetry(id, x.retryAt); }
          if retried { return; }
        }
        MarkIf(table, id, Failed, x.markOk);
    }
  }

  /** The same from the machine's side. */
  lemma JobRuns(s: Sys, w: string, id: nat, job: Job, x: World)
    requires id < |s.jobs| && Of(s, w) == Holding(id, job)
    ensures var row, t := s.jobs[id], Run(s, JobActs(s.jobs[id], job, w, x));
            && t.jobs == s.jobs[id := Left(row, job, x)]
            && OnlyWorker(s, t, w, if Starts(row, x) then [(id, job.attempts)] else [])
  {
    if !x.registered {
      RefusedRuns(s, w, id, job, x);
    } else {
      var a := CheckFlag(w, x.flagReadOk);
      StartSteps(s, w, id, job, x);
      LocalsAfter(s, w, a);
      RunSnoc(s, [], a);
      assert [] + [a] == [a];
      hide Step;
      if Seen(s.jobs[id], x) {
        SeenRuns(s, Step(s, a), w, id, job, x);
      } else {
        StartedRuns(s, Step(s, a), w, id, job, x);
      }
      hide Run, OnlyWorker, Left, JobActs;
    }
  }

  lemma RefusedRuns(s: Sys, w: string, id: nat, job: Job, x: World)
    requires id < |s.jobs| && Of(s, w) == Holding(id, job) && !x.registered
    ensures var row, t := s.jobs[id], Run(s, JobActs(s.jobs[id], job, w, x));
            t.jobs == s.jobs[id := Left(row, job, x)] && OnlyWorker(s, t, w, [])
  {
    var a := Refuse(w, x.markOk);
    hide Step, MarkRow, Marked, EndActs;
    MarkSteps(s, w, id, job, x.markOk);
    MarkRowIs(s, w, id, Failed, x.markOk);
    LocalsAfter(s, w, a);
    RunSnoc(s, [], a);
    assert [] + [a] == [a];
  }

  lemma SeenRuns(s: Sys, t: Sys, w: string, id: nat, job: Job, x: World)
    requires id < |s.jobs| && w in s.locals && x.registered && Seen(s.jobs[id], x)
    requires t == Run(s, [CheckFlag(w, x.flagReadOk)]) && t.jobs == s.jobs && Of(t, w) == Stopping(id, job)
    requires t.claims == s.claims && t.locals == s.locals[w := Of(t, w)] && t.starts == s.starts
    ensures var row, u := s.jobs[id], Run(s, JobActs(s.jobs[id], job, w, x));
            u.jobs == s.jobs[id := Left(row, job, x)] && OnlyWorker(s, u, w, [])
  {
    var a, b := CheckFlag(w, x.flagReadOk), ConfirmStop(w, x.markOk);
    hide Step, Run, MarkRow, Marked, EndActs;
    MarkSteps(t, w, id, job, x.markOk);
    MarkRowIs(t, w, id, Cancelled, x.markOk);
    LocalsAfter(t, w, b);
    RunSnoc(s, [a], b);
    assert [a] + [b] == [a, b];
  }

  lemma OnlyWorkerAfter(s: Sys, m: Sys, u: Sys, w: string, l: Local, started: seq<(nat, nat)>)
    requires m.claims == s.claims && m.locals == s.locals[w := l] && m.starts == s.starts + started
    requires OnlyWorker(m, u, w, [])
    ensures OnlyWorker(s, u, w, started)
  {
  }

  lemma StartedRuns(s: Sys, t: Sys, w: string, id: nat, job: Job, x: World)
    requires id < |s.jobs| && w in s.locals && Starts(s.jobs[id], x)
    requires t == Run(s, [CheckFlag(w, x.flagReadOk)]) && t.jobs == s.jobs && Of(t, w) == Executing(id, job)
    requires t.claims == s.claims && t.locals == s.locals[w := Of(t, w)] && t.starts == s.starts + [(id, job.attempts)]
    ensures var row, u := s.jobs[id], Run(s, JobActs(s.jobs[id], job, w, x));
            u.jobs == s.jobs[id := Left(row, job, x)] && OnlyWorker(s, u, w, [(id, job.attempts)])
  {
    var row, m := s.jobs[id], Run(s, Opening(w, x));
    OpeningRuns(s, t, w, id, job, x);
    RunAppend(s, Opening(w, x), EndActs(row, job, w, x));
    BeatKeeps(row, x.now, x.lease);
    hide Step, Run, Opening, Marked, WorthRetrying, Retryable, Beaten, Requeued, EndActs, OnlyWorker, Retries, Verdict;
    EndRuns(m, w, id, row, job, x);
    OnlyWorkerAfter(s, m, Run(m, EndActs(row, job, w, x)), w, Of(m, w), [(id, job.attempts)]);
  }

  lemma OpeningRuns(s: Sys, t: Sys, w: string, id: nat, job: Job, x: World)
    requires id < |s.jobs| && w in s.locals
    requires t == Run(s, [CheckFlag(w, x.flagReadOk)]) && t.jobs == s.jobs && Of(t, w) == Executing(id, job)
    requires t.claims == s.claims && t.locals == s.locals[w := Of(t, w)] && t.starts == s.starts + [(id, job.attempts)]
    ensures var m := Run(s, Opening(w, x));
            && m.jobs == s.jobs[id := if x.beatOk then Beaten(s.jobs[id], x.now, x.lease) else s.jobs[id]]
            && Of(m, w) == Executing(id, job)
            && m.claims == s.claims && m.locals == s.locals[w := Of(m, w)] && m.starts == s.starts + [(id, job.attempts)]
  {
    var a, b := CheckFlag(w, x.flagReadOk), Beat(w, x.now, x.lease);
    hide Step, Run, Beaten;
    assert [a] + [] == [a];
    if x.beatOk {
      BeatSteps(t, w, id, job, x);
      LocalsAfter(t, w, b);
      RunSnoc(s, [a], b);
    }
  }

  lemma EndRuns(m: Sys, w: string, id: nat, row: Job, job: Job, x: World)
    requires id < |m.jobs| && w in m.locals && Of(m, w) == Executing(id, job) && Starts(row, x)
    requires m.jobs[id].cancelRequested == row.cancelRequested && Retryable(m.jobs[id]) == Retryable(row)
    ensures var t := Run(m, EndActs(row, job, w, x));
            && OnlyWorker(m, t, w, [])
            && t.jobs == m.jobs[id :=
                 if Retries(row, job, x) then Requeued(m.jobs[id], x.retryAt)
                 else if x.markOk then Marked(m.jobs[id], Verdict(row, x))
                 else m.jobs[id]]
  {
    var a := End(w, x.ending, x.endReadOk, x.markOk);
    var t := Step(m, a);
    hide Step, MarkRow, Marked, WorthRetrying, Retryable, Requeued;
    EndSteps(m, w, id, job, x);
    LocalsAfter(m, w, a);
    RunSnoc(m, [], a);
    assert [] + [a] == [a];
    match x.ending
    case Success => MarkRowIs(m, w, id, Completed, x.markOk);
    case Stopped => MarkRowIs(m, w, id, Cancelled, x.markOk);
    case Error(_) => ErrorRuns(m, t, w, id, row, job, x);
  }

  lemma ErrorRuns(m: Sys, t: Sys, w: string, id: nat, row: Job, job: Job, x: World)
    requires id < |m.jobs| && w in m.locals && x.ending.Error? && Starts(row, x)
    requires Retryable(m.jobs[id]) == Retryable(row)
    requires t == Run(m, [End(w, x.ending, x.endReadOk, x.markOk)]) && t.jobs == m.jobs
    requires Of(t, w) == (if !(x.endReadOk && row.cancelRequested) && WorthRetrying(job, x.ending.transient)
                          then Retrying(id, job) else Failing(id, job))
    requires t.claims == m.claims && t.locals == m.locals[w := Of(t, w)] && t.starts == m.starts
    ensures var u := Run(m, EndActs(row, job, w, x));
            && OnlyWorker(m, u, w, [])
            && u.jobs == m.jobs[id :=
                 if Retries(row, job, x) then Requeued(m.jobs[id], x.retryAt)
                 else if x.markOk then Marked(m.jobs[id], Failed) else m.jobs[id]]
  {
    var a, c := End(w, x.ending, x.endReadOk, x.markOk), Fail(w, x.markOk);
    hide Step, Run, MarkRow, Marked, WorthRetrying, Retryable, Requeued;
    if Of(t, w).Retrying? {
      var b := Requeue(w, x.retryAt, x.retryOk);
      var v := Step(t, b);
      RetrySteps(t, w, id, job, x);
      LocalsAfter(t, w, b);
      RunSnoc(m, [a], b);
      if !Retries(row, job, x) {
        FailRuns(m, [a] + [b], v, w, id, job, x);
        assert [a] + [b] + [c] == [a] + ([b] + [c]);
      } else {
        assert [a] + ([b] + []) == [a] + [b];
      }
    } else {
      FailRuns(m, [a], t, w, id, job, x);
    }
  }

  lemma FailRuns(m: Sys, acts: seq<Action>, t: Sys, w: string, id: nat, job: Job, x: World)
    requires t == Run(m, acts) && id < |m.jobs| && w in m.locals && t.jobs == m.jobs && Of(t, w) == Failing(id, job)
    requires t.claims == m.claims && t.locals == m.locals[w := Of(t, w)] && t.starts == m.starts
    ensures var u := Run(m, acts + [Fail(w, x.markOk)]);
            && OnlyWorker(m, u, w, [])
            && u.jobs == m.jobs[id := if x.markOk then Marked(m.jobs[id], Failed) else m.jobs[id]]
  {
    var c := Fail(w, x.markOk);
    hide Step, Run, MarkRow, Marked;
    MarkSteps(t, w, id, job, x.markOk);
    MarkRowIs(t, w, id, Failed, x.markOk);
    LocalsAfter(t, w, c);
    RunSnoc(m, acts, c);
  }

  lemma {:induction false} RunAppend(s: Sys, xs: seq<Action>, ys: seq<Action>)
    ensures Run(s, xs + ys) == Run(Run(s, xs), ys)
  {
    hide Step;
    if ys == [] {
      assert xs + ys == xs;
    } else {
      assert (xs + ys)[..|xs + ys| - 1] == xs + ys[..|ys| - 1];
      RunAppend(s, xs, ys[..|ys| - 1]);
    }
  }
}
